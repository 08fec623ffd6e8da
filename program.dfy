/**
  The build test application: it reports three build settings taken from the
  environment, runs two mandatory self-checks and one informational check,
  prints a final banner and returns the process exit code.

  The process environment is a map from variable name to value (a missing key
  is an unset variable), and the console is the sequence of lines written to it.
 */
module BuildTestApp {
  import opened DotNet

  type Environment = map<string, string>

  // The status marks that open the console lines.
  const PASS_MARK := "✅ "
  const FAIL_MARK := "❌ "
  const WARN_MARK := "⚠️  "

  const HEADER := "=== Build Test Application ==="
  const MATH_PASSED := PASS_MARK + "Math test passed"
  const MATH_FAILED := FAIL_MARK + "Math test failed"
  const STRING_PASSED := PASS_MARK + "String test passed"
  const STRING_FAILED := FAIL_MARK + "String test failed"
  const AGENT_NOT_SET := WARN_MARK + "Agent name not set (expected in pipeline context)"
  const AGENT_PREFIX := PASS_MARK + "Running on agent: "
  const ALL_PASSED := PASS_MARK + "All checks passed!"
  const TESTS_FAILED := FAIL_MARK + "Tests failed!"

  // ---------------------------------------------------------------------------
  // Pure helpers

  /** `Environment.GetEnvironmentVariable`: null when the variable is unset. */
  function GetEnvironmentVariable(env: Environment, variable: string): (v: Option<string>)
    ensures v.Some? <==> variable in env
    ensures v.Some? ==> v.value == env[variable]
  {
    if variable in env then Some(env[variable]) else None
  }

  /** `Add`: C# `int` addition, which wraps around on overflow (unchecked context). */
  function Add(a: Int32, b: Int32): (r: Int32)
    ensures INT32_MIN <= a as int + b as int <= INT32_MAX ==> r as int == a as int + b as int
    ensures (a as int + b as int - r as int) % INT32_MODULUS == 0
  {
    Wrap(a as int + b as int)
  }

  /** `Greet`: the greeting `Hello, {name}!`, described piece by piece. */
  function Greet(name: string): (r: string)
    ensures |r| == |name| + 8
    ensures r[..7] == "Hello, "
    ensures r[7..7 + |name|] == name
    ensures r[|r| - 1] == '!'
  {
    "Hello, " + name + "!"
  }

  /** A resolver: the variable's value whenever it is set (even to ""), else the fallback. */
  function Resolve(env: Environment, variable: string, fallback: string): (r: string)
    ensures variable in env ==> r == env[variable]
    ensures variable !in env ==> r == fallback
  {
    Coalesce(GetEnvironmentVariable(env, variable), fallback)
  }

  /** `GetEnvironment`: `BUILD_ENV`, or `local` when unset. */
  function GetEnvironment(env: Environment): (r: string)
    ensures "BUILD_ENV" in env ==> r == env["BUILD_ENV"]
    ensures "BUILD_ENV" !in env ==> r == "local"
  {
    Resolve(env, "BUILD_ENV", "local")
  }

  /** `GetBuildNumber`: `BUILD_BUILDNUMBER`, or `local-build` when unset. */
  function GetBuildNumber(env: Environment): (r: string)
    ensures "BUILD_BUILDNUMBER" in env ==> r == env["BUILD_BUILDNUMBER"]
    ensures "BUILD_BUILDNUMBER" !in env ==> r == "local-build"
  {
    Resolve(env, "BUILD_BUILDNUMBER", "local-build")
  }

  /** `GetSourceBranch`: `BUILD_SOURCEBRANCH`, or `unknown` when unset. */
  function GetSourceBranch(env: Environment): (r: string)
    ensures "BUILD_SOURCEBRANCH" in env ==> r == env["BUILD_SOURCEBRANCH"]
    ensures "BUILD_SOURCEBRANCH" !in env ==> r == "unknown"
  {
    Resolve(env, "BUILD_SOURCEBRANCH", "unknown")
  }

  // ---------------------------------------------------------------------------
  // What the program prints and returns, as functions of the environment

  /** Check 1: `Add(2, 2)` is 4. */
  predicate MathCheck()
  {
    Add(2, 2) == 4
  }

  /** Check 2: the greeting for `Pipeline` contains `Pipeline`. */
  predicate StringCheck()
  {
    Contains(Greet("Pipeline"), "Pipeline")
  }

  /** The informational line of check 3, for the value read from `AGENT_NAME`. */
  function AgentLine(agentName: Option<string>): string
  {
    if IsNullOrEmpty(agentName) then AGENT_NOT_SET else AGENT_PREFIX + agentName.value
  }

  /** The three status lines `RunTests` prints, in order. */
  function CheckLines(env: Environment): seq<string>
  {
    [ if MathCheck() then MATH_PASSED else MATH_FAILED,
      if StringCheck() then STRING_PASSED else STRING_FAILED,
      AgentLine(GetEnvironmentVariable(env, "AGENT_NAME")) ]
  }

  /** The block printed before the checks run. */
  function HeaderLines(env: Environment): seq<string>
  {
    [ HEADER,
      "Environment: " + GetEnvironment(env),
      "Build Number: " + GetBuildNumber(env),
      "Source Branch: " + GetSourceBranch(env),
      "" ]
  }

  /** The final banner for the result of `RunTests`. */
  function FinalBanner(passed: bool): string
  {
    if passed then ALL_PASSED else TESTS_FAILED
  }

  /** Everything the program writes to the console, in order. */
  function Transcript(env: Environment): seq<string>
  {
    HeaderLines(env) + CheckLines(env) + [FinalBanner(MathCheck() && StringCheck())]
  }

  /** The value `Main` returns. */
  function ExitCode(): int
  {
    if MathCheck() && StringCheck() then 0 else 1
  }

  // ---------------------------------------------------------------------------
  // The program

  /**
    `RunTests`: runs the checks in order, printing one line per check; only
    the math and string checks can clear `passed`.
   */
  method RunTests(env: Environment) returns (passed: bool, output: seq<string>)
    ensures passed <==> MathCheck() && StringCheck()
    ensures output == CheckLines(env)
  {
    passed := true;
    output := [];

    // Check 1: basic math
    if Add(2, 2) != 4 {
      output := output + [MATH_FAILED];
      passed := false;
    } else {
      output := output + [MATH_PASSED];
    }

    // Check 2: string operations
    if !Contains(Greet("Pipeline"), "Pipeline") {
      output := output + [STRING_FAILED];
      passed := false;
    } else {
      output := output + [STRING_PASSED];
    }

    // Check 3: agent name (informational only)
    var agentName := GetEnvironmentVariable(env, "AGENT_NAME");
    if IsNullOrEmpty(agentName) {
      output := output + [AGENT_NOT_SET];
    } else {
      output := output + [AGENT_PREFIX + agentName.value];
    }
  }

  /**
    The program's `Main`: prints the header block, runs the checks, prints the
    banner that matches their result and returns 0 on success, 1 on failure.
   */
  method Run(env: Environment) returns (exitCode: int, output: seq<string>)
    ensures output == Transcript(env)
    ensures exitCode == ExitCode()
    ensures exitCode == 0 <==> output[|output| - 1] == ALL_PASSED
  {
    output := [HEADER];
    output := output + ["Environment: " + GetEnvironment(env)];
    output := output + ["Build Number: " + GetBuildNumber(env)];
    output := output + ["Source Branch: " + GetSourceBranch(env)];
    output := output + [""];

    var passed, checkOutput := RunTests(env);
    output := output + checkOutput;
    if passed {
      output := output + [ALL_PASSED];
      exitCode := 0;
    } else {
      output := output + [TESTS_FAILED];
      exitCode := 1;
    }
  }

  // ---------------------------------------------------------------------------
  // Properties

  /** A resolver yields its fallback only when the variable is unset or set to the fallback itself. */
  lemma ResolveFallbackOnlyWhenUnset(env: Environment, variable: string, fallback: string)
    ensures Resolve(env, variable, fallback) == fallback <==> variable !in env || env[variable] == fallback
  {
  }

  /** `??` keeps an empty value: a variable set to "" resolves to "", not to its fallback. */
  lemma EmptyValueIsKept(env: Environment)
    requires "BUILD_ENV" in env && env["BUILD_ENV"] == ""
    ensures GetEnvironment(env) == ""
  {
  }

  /** The greeting contains the name, at offset 7. */
  lemma GreetContainsName(name: string)
    ensures OccursAt(Greet(name), name, 7)
    ensures Contains(Greet(name), name)
  {
    assert OccursAt(Greet(name), name, 7);
  }

  /** Addition is commutative, overflow included. */
  lemma AddCommutes(a: Int32, b: Int32)
    ensures Add(a, b) == Add(b, a)
  {
  }

  /** Addition wraps around past the largest `int`. */
  lemma AddWrapsAround()
    ensures Add(0x7FFF_FFFF, 1) as int == INT32_MIN
  {
  }

  /** Both mandatory checks always pass. */
  lemma MandatoryChecksPass()
    ensures MathCheck()
    ensures StringCheck()
  {
    GreetContainsName("Pipeline");
  }

  /** The agent check warns exactly when `AGENT_NAME` is unset or empty, and otherwise names the agent. */
  lemma AgentLineWarnsIffUnset(env: Environment)
    ensures CheckLines(env)[2] == AGENT_NOT_SET <==> "AGENT_NAME" !in env || env["AGENT_NAME"] == ""
    ensures "AGENT_NAME" in env && env["AGENT_NAME"] != "" ==> Contains(CheckLines(env)[2], env["AGENT_NAME"])
  {
    var line := CheckLines(env)[2];
    if "AGENT_NAME" in env && env["AGENT_NAME"] != "" {
      var agent := env["AGENT_NAME"];
      assert line == AGENT_PREFIX + agent;
      assert line[0] == PASS_MARK[0] != WARN_MARK[0] == AGENT_NOT_SET[0];
      assert line[|AGENT_PREFIX|..|AGENT_PREFIX| + |agent|] == agent;
      assert OccursAt(line, agent, |AGENT_PREFIX|);
    }
  }

  /**
    The agent check is informational: the check lines depend on the environment
    only through `AGENT_NAME`, and the final banner does not depend on it at all.
   */
  lemma AgentCheckIsInformational(env1: Environment, env2: Environment)
    ensures GetEnvironmentVariable(env1, "AGENT_NAME") == GetEnvironmentVariable(env2, "AGENT_NAME")
      ==> CheckLines(env1) == CheckLines(env2)
    ensures Transcript(env1)[8] == Transcript(env2)[8]
  {
  }

  /**
    The console output is exactly nine lines: the header, the three resolved
    settings, a blank line, one line per check and the final banner.
   */
  lemma TranscriptLayout(env: Environment)
    ensures |Transcript(env)| == 9
    ensures Transcript(env)[0] == HEADER
    ensures Transcript(env)[1] == "Environment: " + GetEnvironment(env)
    ensures Transcript(env)[2] == "Build Number: " + GetBuildNumber(env)
    ensures Transcript(env)[3] == "Source Branch: " + GetSourceBranch(env)
    ensures Transcript(env)[4] == ""
    ensures Transcript(env)[5..8] == CheckLines(env)
    ensures Transcript(env)[8] in {ALL_PASSED, TESTS_FAILED}
  {
  }

  /** `Main` returns 0 exactly when the checks pass and exactly when the last line is the success banner. */
  lemma ExitCodeMatchesBanner(env: Environment)
    ensures ExitCode() in {0, 1}
    ensures ExitCode() == 0 <==> MathCheck() && StringCheck()
    ensures ExitCode() == 0 <==> Transcript(env)[8] == ALL_PASSED
  {
    assert ALL_PASSED != TESTS_FAILED by { assert ALL_PASSED[0] == PASS_MARK[0] != FAIL_MARK[0] == TESTS_FAILED[0]; }
  }

  /** In every environment the program passes, prints the success banner and returns 0. */
  lemma AlwaysSucceeds(env: Environment)
    ensures ExitCode() == 0
    ensures Transcript(env)[8] == ALL_PASSED
  {
    MandatoryChecksPass();
  }

  /** With none of the variables set, the program prints the defaults and the warning, and returns 0. */
  lemma RunWithEmptyEnvironment()
    ensures Transcript(map[]) ==
      [ HEADER,
        "Environment: local",
        "Build Number: local-build",
        "Source Branch: unknown",
        "",
        MATH_PASSED,
        STRING_PASSED,
        AGENT_NOT_SET,
        ALL_PASSED ]
    ensures ExitCode() == 0
  {
    MandatoryChecksPass();
    assert "Environment: " + "local" == "Environment: local";
    assert "Build Number: " + "local-build" == "Build Number: local-build";
    assert "Source Branch: " + "unknown" == "Source Branch: unknown";
  }

  /** With `AGENT_NAME=agent-7` the program reports that agent and still returns 0. */
  lemma RunOnAgent()
    ensures Transcript(map["AGENT_NAME" := "agent-7"])[7] == "✅ Running on agent: agent-7"
    ensures ExitCode() == 0
  {
    MandatoryChecksPass();
  }
}
