/** Command-line selection of the app to launch (`Apps/main.cpp`):
    `--app NAME` and `--app=NAME` choose an entry of a two-entry registry,
    and an unknown name falls back to the sphere visualiser. */
module AppSelection {
  import opened Common

  const DefaultApp: string := "spherevis"
  const VolumeFxApp: string := "volumefx"
  const AppFlag: string := "--app"
  const AppPrefix: string := "--app="

  /** `argv[i] ? argv[i] : ""`: a null entry reads as the empty string. */
  function ArgText(a: Option<string>): string
  {
    if a.Some? then a.value else ""
  }

  predicate HasPrefix(s: string, prefix: string)
  {
    |prefix| <= |s| && s[..|prefix|] == prefix
  }

  /** Whether `argv[i]` is `--app` with a following entry, which it consumes. */
  predicate TakesValue(argv: seq<Option<string>>, i: nat)
  {
    i + 1 < |argv| && ArgText(argv[i]) == AppFlag
  }

  /** The entry consumed after `--app` is never null: building a
      `std::string` from a null `char *` is undefined. */
  predicate ValuesPresent(argv: seq<Option<string>>, i: nat)
    decreases |argv| - i
  {
    if i >= |argv| then true
    else if TakesValue(argv, i) then argv[i + 1].Some? && ValuesPresent(argv, i + 2)
    else ValuesPresent(argv, i + 1)
  }

  /** The loop of `ParseSelectedApp` from index i with the current selection. */
  function Scan(argv: seq<Option<string>>, i: nat, selected: string): (r: string)
    requires ValuesPresent(argv, i)
    ensures (forall k :: i <= k < |argv| ==> ArgText(argv[k]) != AppFlag && !HasPrefix(ArgText(argv[k]), AppPrefix))
      ==> r == selected
    ensures r == selected || exists k :: i <= k < |argv| && NamedAt(argv, k, r)
    decreases |argv| - i
  {
    if i >= |argv| then selected
    else if TakesValue(argv, i) then
      assert NamedAt(argv, i + 1, argv[i + 1].value);
      Scan(argv, i + 2, argv[i + 1].value)
    else if HasPrefix(ArgText(argv[i]), AppPrefix) then
      assert NamedAt(argv, i, ArgText(argv[i])[|AppPrefix|..]);
      Scan(argv, i + 1, ArgText(argv[i])[|AppPrefix|..])
    else Scan(argv, i + 1, selected)
  }

  /** Entry k names `name`: as the whole entry (the value after `--app`) or
      as what follows `--app=`. */
  predicate NamedAt(argv: seq<Option<string>>, k: nat, name: string)
  {
    k < |argv| && (name == ArgText(argv[k])
      || (HasPrefix(ArgText(argv[k]), AppPrefix) && name == ArgText(argv[k])[|AppPrefix|..]))
  }

  /** How the command line reads, option by option. */
  datatype Token = Select(name: string) | Other

  /** The command line from index i cut into options: `--app NAME` is one
      option, `--app=NAME` another, anything else is ignored. */
  function Tokens(argv: seq<Option<string>>, i: nat): seq<Token>
    requires ValuesPresent(argv, i)
    decreases |argv| - i
  {
    if i >= |argv| then []
    else if TakesValue(argv, i) then [Select(argv[i + 1].value)] + Tokens(argv, i + 2)
    else if HasPrefix(ArgText(argv[i]), AppPrefix) then [Select(ArgText(argv[i])[|AppPrefix|..])] + Tokens(argv, i + 1)
    else [Other] + Tokens(argv, i + 1)
  }

  /** The name chosen by the last selecting option, or the default if none. */
  function LastSelection(ts: seq<Token>, default: string): (r: string)
    ensures (forall k :: 0 <= k < |ts| ==> ts[k] == Other) ==> r == default
    ensures r == default || exists k :: 0 <= k < |ts| && ts[k] == Select(r)
    decreases |ts|
  {
    if |ts| == 0 then default
    else if ts[|ts| - 1].Select? then ts[|ts| - 1].name
    else LastSelection(ts[..|ts| - 1], default)
  }

  lemma {:induction false} LastSelectionAppend(ts: seq<Token>, t: Token, default: string)
    ensures LastSelection([t] + ts, default)
      == LastSelection(ts, if t.Select? then t.name else default)
    decreases |ts|
  {
    if |ts| > 0 {
      var u := [t] + ts;
      assert u[..|u| - 1] == [t] + ts[..|ts| - 1];
      LastSelectionAppend(ts[..|ts| - 1], t, default);
    }
  }

  /** The last occurrence wins: the loop's result is the name given by the
      last selecting option, whatever came before it. */
  lemma {:induction false} LastOccurrenceWins(argv: seq<Option<string>>, i: nat, selected: string)
    requires ValuesPresent(argv, i)
    ensures Scan(argv, i, selected) == LastSelection(Tokens(argv, i), selected)
    decreases |argv| - i
  {
    if i < |argv| {
      if TakesValue(argv, i) {
        LastOccurrenceWins(argv, i + 2, argv[i + 1].value);
        LastSelectionAppend(Tokens(argv, i + 2), Select(argv[i + 1].value), selected);
      } else if HasPrefix(ArgText(argv[i]), AppPrefix) {
        var name := ArgText(argv[i])[|AppPrefix|..];
        LastOccurrenceWins(argv, i + 1, name);
        LastSelectionAppend(Tokens(argv, i + 1), Select(name), selected);
      } else {
        LastOccurrenceWins(argv, i + 1, selected);
        LastSelectionAppend(Tokens(argv, i + 1), Other, selected);
      }
    }
  }

  /** `ParseSelectedApp(argc, argv)`; `argv[0]`, the program name, is skipped. */
  method ParseSelectedApp(argv: seq<Option<string>>) returns (selected: string)
    requires ValuesPresent(argv, 1)
    ensures selected == Scan(argv, 1, DefaultApp)
    ensures selected == LastSelection(Tokens(argv, 1), DefaultApp)
  {
    selected := DefaultApp;
    var i := 1;
    while i < |argv|
      invariant 1 <= i && ValuesPresent(argv, i)
      invariant Scan(argv, i, selected) == Scan(argv, 1, DefaultApp)
      decreases |argv| - i
    {
      var arg := ArgText(argv[i]);
      if arg == AppFlag && i + 1 < |argv| {
        i := i + 1;
        selected := argv[i].value;
      } else if HasPrefix(arg, AppPrefix) {
        selected := arg[|AppPrefix|..];
      }
      i := i + 1;
    }
    LastOccurrenceWins(argv, 1, DefaultApp);
  }

  /** The command lines the option parsing is documented by. */
  lemma SelectionExamples(prog: Option<string>, name: string)
    ensures Scan([prog], 1, DefaultApp) == DefaultApp
    ensures Scan([prog, Some(AppFlag), Some(name)], 1, DefaultApp) == name
    ensures Scan([prog, Some(AppPrefix + name)], 1, DefaultApp) == name
    ensures Scan([prog, Some(AppPrefix)], 1, DefaultApp) == ""
    ensures Scan([prog, Some(AppFlag)], 1, DefaultApp) == DefaultApp
    ensures Scan([prog, None, Some(AppFlag)], 1, DefaultApp) == DefaultApp
    ensures Scan([prog, Some(AppFlag), Some(VolumeFxApp), Some(AppPrefix + name)], 1, DefaultApp) == name
  {
    assert (AppPrefix + name)[..|AppPrefix|] == AppPrefix;
    assert (AppPrefix + name)[|AppPrefix|..] == name;
    assert !HasPrefix(AppFlag, AppPrefix);
    assert !HasPrefix("", AppPrefix);
    assert AppPrefix[|AppPrefix|..] == "";
    var a := [prog, None, Some(AppFlag)];
    assert !TakesValue(a, 1) && !TakesValue(a, 2);
    assert Scan(a, 2, DefaultApp) == DefaultApp;
    var b := [prog, Some(AppFlag), Some(VolumeFxApp), Some(AppPrefix + name)];
    assert TakesValue(b, 1) && !TakesValue(b, 3);
    assert Scan(b, 3, VolumeFxApp) == name;
  }

  /** The registry entries. */
  datatype Runner = SphereVis | VolumeFxUnavailable

  /** `registry.find(selected)`: the two registered names. */
  function Lookup(name: string): (r: Option<Runner>)
    ensures r.Some? <==> name == DefaultApp || name == VolumeFxApp
    ensures r == Some(VolumeFxUnavailable) <==> name == VolumeFxApp
  {
    if name == DefaultApp then Some(SphereVis)
    else if name == VolumeFxApp then Some(VolumeFxUnavailable)
    else None
  }

  /** `main`: parse, look up, fall back to the sphere visualiser for an
      unknown name. `sphereVisExit` is what `RunApp` returns. */
  method Launch(argv: seq<Option<string>>, sphereVisExit: int) returns (ran: Runner, exitCode: int)
    requires ValuesPresent(argv, 1)
    ensures ran == VolumeFxUnavailable <==> Scan(argv, 1, DefaultApp) == VolumeFxApp
    ensures ran == VolumeFxUnavailable ==> exitCode == 1
    ensures ran == SphereVis ==> exitCode == sphereVisExit
  {
    var selected := ParseSelectedApp(argv);
    var entry := Lookup(selected);
    if entry.Some? {
      ran := entry.value;
    } else {
      ran := SphereVis;
    }
    exitCode := if ran == VolumeFxUnavailable then 1 else sphereVisExit;
  }
}
