/**
 * The argument lists handed to the `sealfs-client` binary, and the
 * space-joined form of a list that the driver puts into its error messages.
 */
module ClientArgs {

  const LogLevel: seq<string> := ["--log-level", "warn"]

  /** The capacity `Create` always passes, whatever size was requested. */
  const CapacityToken := "100000"

  function MountArgs(mountPath: string, volumeName: string): seq<string>
  {
    LogLevel + ["mount", mountPath, volumeName]
  }

  function UmountArgs(mountPath: string): seq<string>
  {
    LogLevel + ["umount", mountPath]
  }

  function CreateArgs(server: string, volumeName: string): seq<string>
  {
    LogLevel + ["create", "-m", server, volumeName, CapacityToken]
  }

  function ProbeArgs(): seq<string>
  {
    LogLevel + ["probe"]
  }

  /** Every argument preceded by one space, the string the driver's loop accumulates. */
  function LogStr(args: seq<string>): string
  {
    if args == [] then "" else " " + args[0] + LogStr(args[1..])
  }

  lemma {:induction false} LogStrSnoc(args: seq<string>, arg: string)
    ensures LogStr(args + [arg]) == LogStr(args) + " " + arg
  {
    if args == [] {
      assert args + [arg] == [arg];
    } else {
      assert (args + [arg])[1..] == args[1..] + [arg];
      LogStrSnoc(args[1..], arg);
    }
  }

  /** The loop `for _, arg := range args { s = s + " " + arg }`. */
  method BuildLogStr(args: seq<string>) returns (s: string)
    ensures s == LogStr(args)
  {
    s := "";
    var i := 0;
    while i < |args|
      invariant 0 <= i <= |args|
      invariant s == LogStr(args[..i])
    {
      LogStrSnoc(args[..i], args[i]);
      assert args[..i + 1] == args[..i] + [args[i]];
      s := s + " " + args[i];
      i := i + 1;
    }
    assert args[..|args|] == args;
  }

  /** The longest prefix of `s` that holds no space. */
  function TakeWord(s: string): (w: string)
    ensures w <= s && ' ' !in w
    ensures |w| == |s| || s[|w|] == ' '
  {
    if s == [] || s[0] == ' ' then "" else [s[0]] + TakeWord(s[1..])
  }

  /** Reads a space-joined string back into its arguments, one space before each. */
  function Unjoin(s: string): seq<string>
    decreases |s|
  {
    if s == [] then [] else
      var w := TakeWord(s[1..]);
      [w] + Unjoin(s[1 + |w|..])
  }

  lemma {:induction false} TakeWordStops(word: string, rest: string)
    requires ' ' !in word
    requires rest == [] || rest[0] == ' '
    ensures TakeWord(word + rest) == word
  {
    if word == [] {
      assert word + rest == rest;
    } else {
      assert (word + rest)[0] == word[0];
      assert (word + rest)[1..] == word[1..] + rest;
      TakeWordStops(word[1..], rest);
      assert [word[0]] + word[1..] == word;
    }
  }

  lemma UnjoinCons(word: string, rest: string)
    requires ' ' !in word
    requires rest == [] || rest[0] == ' '
    ensures Unjoin(" " + word + rest) == [word] + Unjoin(rest)
  {
    var s := " " + word + rest;
    assert s[1..] == word + rest;
    TakeWordStops(word, rest);
    assert s[1 + |word|..] == rest;
  }

  /** The joined string determines the arguments exactly when none of them holds a space. */
  lemma {:induction false} UnjoinLogStr(args: seq<string>)
    requires forall i :: 0 <= i < |args| ==> ' ' !in args[i]
    ensures Unjoin(LogStr(args)) == args
  {
    if args != [] {
      var rest := LogStr(args[1..]);
      assert rest == [] || rest[0] == ' ';
      UnjoinCons(args[0], rest);
      UnjoinLogStr(args[1..]);
      assert args == [args[0]] + args[1..];
    }
  }

  /** No word `Unjoin` reads contains a space. */
  lemma {:induction false} UnjoinWordsSpaceFree(s: string)
    ensures forall i :: 0 <= i < |Unjoin(s)| ==> ' ' !in Unjoin(s)[i]
    decreases |s|
  {
    if s != [] {
      var w := TakeWord(s[1..]);
      UnjoinWordsSpaceFree(s[1 + |w|..]);
      assert Unjoin(s) == [w] + Unjoin(s[1 + |w|..]);
    }
  }

  /** The joined string gives back the argument list exactly when no argument contains a space. */
  lemma UnjoinLogStrIff(args: seq<string>)
    ensures Unjoin(LogStr(args)) == args <==> forall i :: 0 <= i < |args| ==> ' ' !in args[i]
  {
    if forall i :: 0 <= i < |args| ==> ' ' !in args[i] {
      UnjoinLogStr(args);
    }
    UnjoinWordsSpaceFree(LogStr(args));
  }

  /** A space inside an argument makes two different lists log the same. */
  lemma LogStrAmbiguous()
    ensures ["a b"] != ["a", "b"] && LogStr(["a b"]) == LogStr(["a", "b"])
  {
    assert ["a b"][0] != ["a", "b"][0];
    assert LogStr(["a", "b"]) == " a" + LogStr(["b"]);
  }

  lemma MountLogText(mountPath: string, volumeName: string)
    ensures LogStr(MountArgs(mountPath, volumeName))
         == " --log-level warn mount " + mountPath + " " + volumeName
  {
    var a := MountArgs(mountPath, volumeName);
    calc {
      LogStr(a);
      " --log-level" + LogStr(a[1..]);
      " --log-level" + (" warn" + LogStr(a[2..]));
      " --log-level" + (" warn" + (" mount" + LogStr(a[3..])));
      " --log-level" + (" warn" + (" mount" + (" " + mountPath + LogStr(a[4..]))));
      " --log-level" + (" warn" + (" mount" + (" " + mountPath + (" " + volumeName + LogStr(a[5..])))));
      { assert a[5..] == []; }
      " --log-level warn mount " + mountPath + " " + volumeName;
    }
  }
}
