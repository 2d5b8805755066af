/**
 * How the tray opens the server's page in a browser: the command and arguments
 * chosen for the operating system, and the check for running under the Windows
 * Subsystem for Linux. Starting the command and running `uname -r` are inputs.
 */
module Tray {
  import opened Prelude
  import opened Text

  /** The command and its arguments before the blank argument is inserted. */
  function BrowserCommand(goos: string, wsl: bool, url: string): (c: (string, seq<string>))
    ensures goos == "windows" ==> c == ("cmd", ["/c", "start", url])
    ensures goos == "darwin" ==> c == ("open", [url])
  {
    if goos == "windows" then ("cmd", ["/c", "start", url])
    else if goos == "darwin" then ("open", [url])
    else if wsl then ("cmd.exe", ["/c", "start", url])
    else ("xdg-open", [url])
  }

  /** `append(args[:1], append([]string{""}, args[1:]...)...)` when there is more than one argument. */
  function InsertBlank(args: seq<string>): (r: seq<string>)
    ensures |args| <= 1 ==> r == args
    ensures |args| > 1 ==>
      |r| == |args| + 1 && r[0] == args[0] && r[1] == "" &&
      forall k :: 1 <= k < |args| ==> r[k + 1] == args[k]
  {
    if |args| > 1 then args[..1] + [""] + args[1..] else args
  }

  /** `openURL`'s command and argument list. */
  function OpenUrl(goos: string, wsl: bool, url: string): (c: (string, seq<string>)) {
    var (cmd, args) := BrowserCommand(goos, wsl, url);
    (cmd, InsertBlank(args))
  }

  /**
   * The command for each system: the blank goes in at index 1, before `start` and not
   * after it; a single argument is left alone.
   */
  lemma OpenUrlCommands(goos: string, wsl: bool, url: string)
    ensures goos == "windows" ==> OpenUrl(goos, wsl, url) == ("cmd", ["/c", "", "start", url])
    ensures goos == "darwin" ==> OpenUrl(goos, wsl, url) == ("open", [url])
    ensures goos != "windows" && goos != "darwin" && wsl ==> OpenUrl(goos, wsl, url) == ("cmd.exe", ["/c", "", "start", url])
    ensures goos != "windows" && goos != "darwin" && !wsl ==> OpenUrl(goos, wsl, url) == ("xdg-open", [url])
  {
    var blank := InsertBlank(["/c", "start", url]);
    assert blank == ["/c", "", "start", url];
  }

  /** `isWSL`: `uname -r` succeeded and its output, lower-cased, contains `microsoft`. */
  predicate IsWsl(uname: Option<string>) {
    uname.Some? && Contains(ToLower(uname.value), "microsoft")
  }

  /** The check ignores ASCII case: `microsoft` in any mix of cases is found. */
  lemma IsWslAnyCase(s: string, i: nat)
    requires i + 9 <= |s| && ToLower(s[i..i + 9]) == "microsoft"
    ensures IsWsl(Some(s))
  {
    assert ToLower(s)[i..i + 9] == ToLower(s[i..i + 9]);
    OccursContains(ToLower(s), "microsoft", i);
  }

  /** Conversely, a positive check has `microsoft`, in some mix of cases, in the output. */
  lemma IsWslWitness(s: string) returns (i: nat)
    requires IsWsl(Some(s))
    ensures i + 9 <= |s| && ToLower(s[i..i + 9]) == "microsoft"
  {
    i := ContainsWitness(ToLower(s), "microsoft");
    assert ToLower(s)[i..i + 9] == ToLower(s[i..i + 9]);
  }
}
