/** What a worker thread sends back (src/main.rs:909-915). Spawning the
    `llm` process and reading its pipes are not part of this model: the
    captured stdout, stderr and exit status are parameters. */
module Inference {

  const ErrorMarker: string := "\nError: "

  /** `run_llm`'s result: stdout, with the marker and stderr appended with
      two `push_str` calls when the process did not exit successfully. */
  method ComposeAnswer(stdout: string, stderr: string, exitOk: bool) returns (answer: string)
    ensures |answer| >= |stdout| && answer[..|stdout|] == stdout
    ensures exitOk <==> |answer| == |stdout|
    ensures !exitOk ==> answer[|stdout|..] == ErrorMarker + stderr
  {
    answer := stdout;
    if !exitOk {
      answer := answer + ErrorMarker;
      answer := answer + stderr;
    }
  }
}
