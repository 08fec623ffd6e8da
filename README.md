# Build test application, modelled in Dafny

The repository's C# program `BuildTestApp` is a pipeline smoke test. It does four things in order:

- It prints a header and three build settings read from the environment: `BUILD_ENV`, `BUILD_BUILDNUMBER` and `BUILD_SOURCEBRANCH`. Each setting has a fallback for when the variable is unset.
- It runs two mandatory checks: `Add(2, 2) == 4`, and the greeting for `Pipeline` contains `Pipeline`.
- It runs one informational check on `AGENT_NAME`.
- It prints a final banner and returns exit code 0 or 1.

A companion xUnit file keeps its own copies of `Add` and `Greet` and makes three assertions about them.

The project has three modules:

- `DotNet` (`dotnet.dfy`) covers the runtime semantics the program depends on:
  - nullable strings, as `Option<string>`;
  - the `??` operator (`Coalesce`);
  - `string.IsNullOrEmpty`;
  - ordinal `string.Contains`, specified by an occurrence at some index;
  - C# `int`, as the newtype `Int32`, with unchecked wrap-around (`Wrap`).
- `BuildTestApp` (`program.dfy`) models `Program.cs`.
  - The environment is a `map<string, string>`, and a missing key is an unset variable.
  - Console output is a sequence of lines.
  - `RunTests` and `Main` (here `Run`) are methods that build their output line by line, as the source prints it. The source's `passed` flag is threaded the same way.
  - Each method is proved against specification functions: `CheckLines`, `Transcript` and `ExitCode`.
  - The lemmas state the program's properties over those functions.
- `BuildTestAppTests` (`unit_tests.dfy`) models `UnitTests.cs`. Each `[Fact]` becomes a lemma. Another lemma proves that the test file's copies agree with the application's functions on every input.

The resolvers follow the code. The C# `??` operator replaces only a null value, so a variable set to the empty string resolves to `""` and not to its fallback (`EmptyValueIsKept`). Only the agent check treats empty like unset, because it uses `string.IsNullOrEmpty`.

## Model

| member | source | states |
|---|---|---|
| `DotNet.Wrap` | test-project/Program.cs:65 | the unchecked `int` result is in the 32-bit range, equals the integer when that fits, and is congruent to it modulo 2^32 |
| `DotNet.Coalesce` | test-project/Program.cs:69-73 | `??` returns the value whenever it is non-null, even `""`; only null is replaced by the fallback |
| `DotNet.IsNullOrEmpty` | test-project/Program.cs:53 | `string.IsNullOrEmpty` holds exactly for null and for `""` |
| `DotNet.Contains` | test-project/Program.cs:41 | ordinal `string.Contains` is true exactly when the substring occurs at some index of the string |
| `BuildTestApp.GetEnvironmentVariable` | test-project/Program.cs:52 | reading a variable yields null exactly when it is unset, and otherwise its value |
| `BuildTestApp.Add` | test-project/Program.cs:65 | `Add(a, b)` is `a + b` whenever the sum fits in an `int`, and is always congruent to `a + b` modulo 2^32 |
| `BuildTestApp.AddCommutes` | test-project/Program.cs:65 | `Add(a, b)` equals `Add(b, a)` for every pair of `int`s, overflow included |
| `BuildTestApp.AddWrapsAround` | test-project/Program.cs:65 | `int.MaxValue + 1` wraps to `int.MinValue` |
| `BuildTestApp.Greet` | test-project/Program.cs:67 | the greeting is 8 characters longer than `name`, starts with `Hello, `, holds `name` at offset 7 and ends with `!` |
| `BuildTestApp.GreetContainsName` | test-project/Program.cs:67 | every greeting contains its name, at offset 7 |
| `BuildTestApp.Resolve` | test-project/Program.cs:69-73 | a resolver returns the variable's value whenever it is set, even to `""`, and the fallback only when it is unset |
| `BuildTestApp.GetEnvironment` | test-project/Program.cs:69 | `BUILD_ENV` when set, else `local` |
| `BuildTestApp.GetBuildNumber` | test-project/Program.cs:71 | `BUILD_BUILDNUMBER` when set, else `local-build` |
| `BuildTestApp.GetSourceBranch` | test-project/Program.cs:73 | `BUILD_SOURCEBRANCH` when set, else `unknown` |
| `BuildTestApp.ResolveFallbackOnlyWhenUnset` | test-project/Program.cs:69-73 | a resolver yields its fallback if and only if the variable is unset or is set to the fallback itself |
| `BuildTestApp.EmptyValueIsKept` | test-project/Program.cs:69 | `BUILD_ENV` set to `""` resolves to `""`, not to `local` |
| `BuildTestApp.RunTests` | test-project/Program.cs:25-63 | returns true if and only if the math and string checks both pass, and prints exactly the three check lines in order |
| `BuildTestApp.MandatoryChecksPass` | test-project/Program.cs:29-49 | the math check and the string check always pass |
| `BuildTestApp.AgentLineWarnsIffUnset` | test-project/Program.cs:51-60 | the agent line is the "not set" warning if and only if `AGENT_NAME` is unset or empty, and otherwise it contains the agent name |
| `BuildTestApp.AgentCheckIsInformational` | test-project/Program.cs:51-62 | two environments with the same `AGENT_NAME` give the same check lines, and every environment gives the same final banner, so the agent check never changes the result |
| `BuildTestApp.Run` | test-project/Program.cs:5-23 | `Main` prints the whole transcript and returns the exit code; it returns 0 exactly when its last line is the success banner |
| `BuildTestApp.TranscriptLayout` | test-project/Program.cs:7-22 | the output is exactly nine lines: header, the three resolved settings, a blank line, the three check lines, then one of the two banners |
| `BuildTestApp.ExitCodeMatchesBanner` | test-project/Program.cs:13-22 | the exit code is 0 or 1; it is 0 if and only if both mandatory checks pass, and if and only if the last line is `✅ All checks passed!` |
| `BuildTestApp.AlwaysSucceeds` | test-project/Program.cs:13-17 | in every environment the program prints the success banner and returns 0 |
| `BuildTestApp.RunWithEmptyEnvironment` | test-project/Program.cs:5-23 | with no variables set, the program prints the three defaults, both passed lines, the agent warning and the success banner, and returns 0 |
| `BuildTestApp.RunOnAgent` | test-project/Program.cs:52-59 | with `AGENT_NAME=agent-7`, the agent line is `✅ Running on agent: agent-7` and the exit code is 0 |
| `BuildTestAppTests.SimpleAdd` | test-project/UnitTests.cs:46 | the result is `a + b` when the sum fits in an `int`, and always congruent to it modulo 2^32; it equals `Add` on every input (`HelpersMirrorMainApp`) |
| `BuildTestAppTests.SimpleGreet` | test-project/UnitTests.cs:47 | the greeting is 8 characters longer than `name`, starts with `Hello, `, holds `name` at offset 7 and ends with `!`; it equals `Greet` on every input (`HelpersMirrorMainApp`) |
| `BuildTestAppTests.HelpersMirrorMainApp` | test-project/UnitTests.cs:45-47 | `SimpleAdd` and `SimpleGreet` agree with `Add` and `Greet` on every input |
| `BuildTestAppTests.AddTwoNumbersReturnsSum` | test-project/UnitTests.cs:5-17 | `SimpleAdd(5, 3)` is 8 |
| `BuildTestAppTests.GreetWithNameReturnsGreeting` | test-project/UnitTests.cs:19-30 | `SimpleGreet("World")` contains `World` |
| `BuildTestAppTests.GreetWithPipelineReturnsCorrectMessage` | test-project/UnitTests.cs:32-43 | `SimpleGreet("Pipeline")` is exactly `Hello, Pipeline!` |

## Left out

- Console I/O is not modelled. `Console.WriteLine` becomes appending a line to the returned output. The emoji marks are plain characters, and terminal encoding is not modelled.
- TranscriptLayout: each of the nine entries is one `WriteLine` call. A `BUILD_*` or `AGENT_NAME` value with an embedded newline makes the real console output longer than nine lines, and the model does not capture that.
- Process environment access is not modelled. `Environment.GetEnvironmentVariable` is a lookup in the environment map passed in as a parameter.
- The exit code is returned as an integer. Its delivery to the operating system is not modelled.
- `Main` is named `Run`, because a Dafny method named `Main` would be an executable entry point.
- The xUnit framework is not modelled: test discovery, `Assert.*` and test execution. Each test's assertion is stated as a lemma.
- A null `name` passed to `Greet` is not modelled (C# would return `Hello, !`). Dafny strings cannot be null, and no caller passes null.
