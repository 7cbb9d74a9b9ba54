/** Clients of the builder: what a caller can conclude from the contracts alone. */
module Scenarios {
  import opened Wrappers
  import opened Configuration

  /** A fresh builder builds the defaults. */
  method FreshBuild()
  {
    var b := new Builder();
    var c := b.Build();
    assert c == Defaults;
    assert c.creationTime == EPOCH && c.entrypoint == None && c.exposedPorts == None;
  }

  /** Creation time, entrypoint and environment set; the other two fields stay unset. */
  method ShellEntrypoint()
  {
    var b := new Builder();
    b.SetCreationTime(1000);
    var tokens: seq<Option<string>> := [Some("/bin/sh"), Some("-c")];
    var r1 := b.SetEntrypoint(Some(tokens));
    assert r1 == Pass;
    var e := b.entrypoint.value;
    assert |e| == 2 && tokens[0] == Some(e[0]) && tokens[1] == Some(e[1]);
    assert e == ["/bin/sh", "-c"];
    var env: map<Option<string>, Option<string>> := map[Some("KEY") := Some("VALUE")];
    var r2 := b.SetEnvironment(Some(env));
    assert r2 == Pass;
    var m := b.environmentMap.value;
    assert "KEY" in m && m["KEY"] == "VALUE";
    assert m.Keys == {"KEY"};
    assert m == map["KEY" := "VALUE"];
    var c := b.Build();
    assert c == ContainerConfiguration(1000, Some(["/bin/sh", "-c"]), None, Some(map["KEY" := "VALUE"]), None);
  }

  /** A port list holding a null is refused and the field stays unset. */
  method RejectedPorts(http: Port)
  {
    var b := new Builder();
    var r := b.SetExposedPorts(Some([Some(http), None]));
    assert r == Fail(IllegalArgument);
    var c := b.Build();
    assert c.exposedPorts == None;
  }

  /** A refused call keeps the earlier value; a later null clears it; a later empty list sets it to empty. */
  method EntrypointHistory(shell: string)
  {
    var b := new Builder();
    var r := b.SetEntrypoint(Some([Some(shell)]));
    assert r == Pass;
    var e := b.entrypoint.value;
    assert |e| == 1 && [Some(shell)][0] == Some(e[0]);
    assert e == [shell];
    r := b.SetEntrypoint(Some([None]));
    assert r == Fail(IllegalArgument) && b.entrypoint == Some([shell]);
    r := b.SetEntrypoint(None);
    assert b.entrypoint == None;
    r := b.SetEntrypoint(Some([]));
    var c := b.Build();
    assert c.entrypoint == Some([]);
  }
}
