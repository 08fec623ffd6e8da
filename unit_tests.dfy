/**
  The unit tests of the build test application. They carry their own copies of
  `Add` and `Greet`; each test's single assertion is a lemma here.
 */
module BuildTestAppTests {
  import opened DotNet
  import BuildTestApp

  /** The test file's own copy of `Add`. */
  function SimpleAdd(a: Int32, b: Int32): (r: Int32)
    ensures INT32_MIN <= a as int + b as int <= INT32_MAX ==> r as int == a as int + b as int
    ensures (a as int + b as int - r as int) % INT32_MODULUS == 0
  {
    Wrap(a as int + b as int)
  }

  /** The test file's own copy of `Greet`. */
  function SimpleGreet(name: string): (r: string)
    ensures |r| == |name| + 8
    ensures r[..7] == "Hello, "
    ensures r[7..7 + |name|] == name
    ensures r[|r| - 1] == '!'
  {
    "Hello, " + name + "!"
  }

  /** The copies agree with the application's functions on every input. */
  lemma HelpersMirrorMainApp(a: Int32, b: Int32, name: string)
    ensures SimpleAdd(a, b) == BuildTestApp.Add(a, b)
    ensures SimpleGreet(name) == BuildTestApp.Greet(name)
  {
  }

  /** `Add_TwoNumbers_ReturnsSum`: 5 + 3 is 8. */
  lemma AddTwoNumbersReturnsSum()
    ensures SimpleAdd(5, 3) == 8
  {
  }

  /** `Greet_WithName_ReturnsGreeting`: the greeting for `World` contains `World`. */
  lemma GreetWithNameReturnsGreeting()
    ensures Contains(SimpleGreet("World"), "World")
  {
    HelpersMirrorMainApp(0, 0, "World");
    BuildTestApp.GreetContainsName("World");
  }

  /** `Greet_WithPipeline_ReturnsCorrectMessage`: the greeting for `Pipeline` is `Hello, Pipeline!`. */
  lemma GreetWithPipelineReturnsCorrectMessage()
    ensures SimpleGreet("Pipeline") == "Hello, Pipeline!"
  {
  }
}
