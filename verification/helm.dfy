/**
 The external helm process. A command is the argument vector the
 controller passes; what helm returns is an oracle input to the handlers.
 */
module Helm {
  import opened Wrappers
  import opened Strings

  /** What running helm produced: combined output, plus the error text when the process failed. */
  datatype HelmResult = Succeeded(output: string) | Errored(errText: string, output: string)

  datatype Command = Command(program: string, args: seq<string>)

  const HelmProgram := "helm"
  const NameFlag := "--name="

  /** `helm install --name=<instance> --set <setArg> <chart>` */
  function Install(instance: string, setArg: string, chart: string): (c: Command)
    ensures c.program == HelmProgram
    ensures |c.args| == 5 && c.args[0] == "install"
    ensures c.args[2] == "--set" && c.args[3] == setArg && c.args[4] == chart
    ensures ReleaseOf(c) == Some(instance)
  {
    var c := Command(HelmProgram, ["install", NameFlag + instance, "--set", setArg, chart]);
    assert (NameFlag + instance)[..|NameFlag|] == NameFlag;
    assert (NameFlag + instance)[|NameFlag|..] == instance;
    c
  }

  /** `helm delete <release>` */
  function Delete(release: string): (c: Command)
    ensures c.program == HelmProgram
    ensures |c.args| == 2 && c.args[0] == "delete"
    ensures ReleaseOf(c) == Some(release)
  {
    Command(HelmProgram, ["delete", release])
  }

  /**
   The helm release a command acts on: the value of `--name=` for an
   install, the positional argument for a delete, nothing otherwise.
   */
  function ReleaseOf(c: Command): Option<string>
  {
    if c.program != HelmProgram || |c.args| < 2 then None
    else if c.args[0] == "install" then
      var flag := c.args[1];
      if StartsWith(flag, NameFlag) then Some(flag[|NameFlag|..]) else None
    else if c.args[0] == "delete" then Some(c.args[1])
    else None
  }
}
