/**
 The configuration state of the clang-gc-tool plugin action and its argument
 parser (hphp/tools/clang-gc-tool/plugin.cpp).

 The plugin action keeps a verbose flag, an output directory and five sets of
 class names. `ParseArgs` folds the plugin's argument tokens into that state:
 `-scan NAME` adds NAME to the needs-scan set, `-v` turns verbose on, and any
 other token becomes the output directory.
 */
module PluginAction {

  const ScanFlag: string := "-scan"
  const VerboseFlag: string := "-v"

  /** The private members of the plugin action. */
  datatype Action = Action(
    verbose: bool,
    outdir: string,
    needsScanMethodNames: set<string>,
    gcContainerNames: set<string>,
    hasScanMethodNames: set<string>,
    ignoredNames: set<string>,
    badContainerNames: set<string>)

  /** The state of a freshly constructed action: not verbose, empty output
      directory, all name sets empty. */
  const InitialAction: Action := Action(false, "", {}, {}, {}, {}, {})

  /** The same action with `name` added to its needs-scan set. */
  function AddNeedsScan(a: Action, name: string): (r: Action)
    ensures r.needsScanMethodNames - {name} <= a.needsScanMethodNames <= r.needsScanMethodNames
    ensures name in r.needsScanMethodNames
    ensures r.(needsScanMethodNames := a.needsScanMethodNames) == a
  {
    a.(needsScanMethodNames := a.needsScanMethodNames + {name})
  }

  // ---------------------------------------------------------------------------
  // The parser, one token (or one `-scan NAME` pair) at a time

  /** Parsing state after the loop has reached position `i` of `args`.
      A `-scan` that is the last token consumes nothing and ends the loop. */
  function ParseFrom(a: Action, args: seq<string>, i: nat): (r: Action)
    ensures a.needsScanMethodNames <= r.needsScanMethodNames
    ensures a.verbose ==> r.verbose
    ensures r.gcContainerNames == a.gcContainerNames
    ensures r.hasScanMethodNames == a.hasScanMethodNames
    ensures r.ignoredNames == a.ignoredNames
    ensures r.badContainerNames == a.badContainerNames
    decreases |args| - i
  {
    if i >= |args| then a
    else if args[i] == ScanFlag then
      if i + 1 < |args| then ParseFrom(AddNeedsScan(a, args[i + 1]), args, i + 2)
      else a
    else if args[i] == VerboseFlag then ParseFrom(a.(verbose := true), args, i + 1)
    else ParseFrom(a.(outdir := args[i]), args, i + 1)
  }

  /** The result of parsing the whole token list: needs-scan gains exactly
      the `-scan` operands, verbose is switched on by a free `-v`, and the
      last free token that is not `-v` becomes the output directory. */
  function Parse(a: Action, args: seq<string>): (r: Action)
    ensures forall x :: x in r.needsScanMethodNames <==> x in a.needsScanMethodNames || IsScanName(args, x)
    ensures r.verbose <==> a.verbose || HasVerboseToken(args)
    ensures OutdirIsLast(args, 0, a.outdir, r.outdir)
  {
    ParseFromNeedsScan(a, args, 0);
    ParseFromVerbose(a, args, 0);
    ParseFromOutdir(a, args, 0);
    ParseFrom(a, args, 0)
  }

  // ---------------------------------------------------------------------------
  // A position-wise description of what each token means

  /** The number of consecutive `-scan` tokens immediately before position `i`. */
  ghost function ScanRun(args: seq<string>, i: nat): nat
    requires i <= |args|
  {
    if i == 0 || args[i - 1] != ScanFlag then 0 else ScanRun(args, i - 1) + 1
  }

  /** Token `i` is read as the class name of a preceding `-scan`. */
  ghost predicate IsScanOperand(args: seq<string>, i: nat)
    requires i < |args|
  {
    ScanRun(args, i) % 2 == 1
  }

  /** Position `i` is where the loop looks at a token afresh (it is not
      swallowed by a preceding `-scan`). */
  ghost predicate IsTokenStart(args: seq<string>, i: nat)
    requires i <= |args|
  {
    ScanRun(args, i) % 2 == 0
  }

  /** Token `i` is neither a `-scan` flag nor the operand of one. */
  ghost predicate IsFree(args: seq<string>, i: nat)
    requires i < |args|
  {
    args[i] != ScanFlag && !IsScanOperand(args, i)
  }

  /** Token `i` switches verbose mode on. */
  ghost predicate SetsVerbose(args: seq<string>, i: nat)
    requires i < |args|
  {
    IsFree(args, i) && args[i] == VerboseFlag
  }

  /** Token `i` is taken as the output directory. */
  ghost predicate SetsOutdir(args: seq<string>, i: nat)
    requires i < |args|
  {
    IsFree(args, i) && args[i] != VerboseFlag
  }

  /** `x` is the operand of some `-scan` in `args`. */
  ghost predicate IsScanName(args: seq<string>, x: string)
  {
    exists j :: 0 <= j < |args| && IsScanOperand(args, j) && args[j] == x
  }

  /** Some token of `args` switches verbose mode on. */
  ghost predicate HasVerboseToken(args: seq<string>)
  {
    exists j :: 0 <= j < |args| && SetsVerbose(args, j)
  }

  /** How one step of the loop moves between token starts. */
  lemma TokenStartStep(args: seq<string>, i: nat)
    requires i < |args| && IsTokenStart(args, i)
    ensures !IsScanOperand(args, i)
    ensures args[i] == ScanFlag && i + 1 < |args| ==> IsScanOperand(args, i + 1) && IsTokenStart(args, i + 2)
    ensures args[i] == ScanFlag && i + 1 == |args| ==> !IsTokenStart(args, |args|)
    ensures args[i] != ScanFlag ==> IsTokenStart(args, i + 1)
  {
  }

  /** The needs-scan set gains exactly the `-scan` operands from position `i` on. */
  lemma {:induction false} ParseFromNeedsScan(a: Action, args: seq<string>, i: nat)
    requires i <= |args| && IsTokenStart(args, i)
    ensures forall x :: x in ParseFrom(a, args, i).needsScanMethodNames <==>
      x in a.needsScanMethodNames || exists j :: i <= j < |args| && IsScanOperand(args, j) && args[j] == x
    decreases |args| - i
  {
    if i < |args| {
      TokenStartStep(args, i);
      if args[i] == ScanFlag {
        if i + 1 < |args| {
          ParseFromNeedsScan(AddNeedsScan(a, args[i + 1]), args, i + 2);
        }
      } else if args[i] == VerboseFlag {
        ParseFromNeedsScan(a.(verbose := true), args, i + 1);
      } else {
        ParseFromNeedsScan(a.(outdir := args[i]), args, i + 1);
      }
    }
  }

  /** Verbose ends up set iff it was set already or some free token is `-v`. */
  lemma {:induction false} ParseFromVerbose(a: Action, args: seq<string>, i: nat)
    requires i <= |args| && IsTokenStart(args, i)
    ensures ParseFrom(a, args, i).verbose <==>
      a.verbose || exists j :: i <= j < |args| && SetsVerbose(args, j)
    decreases |args| - i
  {
    if i < |args| {
      TokenStartStep(args, i);
      if args[i] == ScanFlag {
        if i + 1 < |args| {
          ParseFromVerbose(AddNeedsScan(a, args[i + 1]), args, i + 2);
          assert !SetsVerbose(args, i) && !SetsVerbose(args, i + 1);
          assert (exists j :: i <= j < |args| && SetsVerbose(args, j)) ==>
            exists j :: i + 2 <= j < |args| && SetsVerbose(args, j);
        } else {
          assert !SetsVerbose(args, i);
        }
      } else if args[i] == VerboseFlag {
        ParseFromVerbose(a.(verbose := true), args, i + 1);
        assert SetsVerbose(args, i);
      } else {
        ParseFromVerbose(a.(outdir := args[i]), args, i + 1);
        assert !SetsVerbose(args, i);
        assert (exists j :: i <= j < |args| && SetsVerbose(args, j)) ==>
          exists j :: i + 1 <= j < |args| && SetsVerbose(args, j);
      }
    }
  }

  /** The last outdir-setting token wins, or the old outdir stays if there is none. */
  ghost predicate OutdirIsLast(args: seq<string>, i: nat, before: string, after: string)
    requires i <= |args|
  {
    || (exists j :: i <= j < |args| && SetsOutdir(args, j) && after == args[j]
          && forall k :: j < k < |args| ==> !SetsOutdir(args, k))
    || ((forall j :: i <= j < |args| ==> !SetsOutdir(args, j)) && after == before)
  }

  lemma {:induction false} ParseFromOutdir(a: Action, args: seq<string>, i: nat)
    requires i <= |args| && IsTokenStart(args, i)
    ensures OutdirIsLast(args, i, a.outdir, ParseFrom(a, args, i).outdir)
    decreases |args| - i
  {
    if i < |args| {
      TokenStartStep(args, i);
      var r := ParseFrom(a, args, i);
      if args[i] == ScanFlag {
        if i + 1 < |args| {
          ParseFromOutdir(AddNeedsScan(a, args[i + 1]), args, i + 2);
          assert !SetsOutdir(args, i) && !SetsOutdir(args, i + 1);
        } else {
          assert !SetsOutdir(args, i);
        }
      } else if args[i] == VerboseFlag {
        ParseFromOutdir(a.(verbose := true), args, i + 1);
        assert !SetsOutdir(args, i);
      } else {
        ParseFromOutdir(a.(outdir := args[i]), args, i + 1);
        assert SetsOutdir(args, i);
        if forall j :: i + 1 <= j < |args| ==> !SetsOutdir(args, j) {
          assert r.outdir == args[i];
        }
      }
    }
  }

  /** `-scan` always swallows the next token as a class name, whatever that
      token is (`-v`, `-scan` or a directory), and parsing resumes after it. */
  lemma {:induction false} ScanConsumesNext(a: Action, name: string, rest: seq<string>)
    ensures Parse(a, [ScanFlag, name] + rest) == Parse(AddNeedsScan(a, name), rest)
  {
    var args := [ScanFlag, name] + rest;
    assert args[0] == ScanFlag && args[1] == name;
    ParseFromShift(AddNeedsScan(a, name), [ScanFlag, name], rest, 0);
  }

  /** Parsing the tail of `prefix + rest` is parsing `rest`. */
  lemma {:induction false} ParseFromShift(a: Action, prefix: seq<string>, rest: seq<string>, i: nat)
    ensures ParseFrom(a, prefix + rest, |prefix| + i) == ParseFrom(a, rest, i)
    decreases |rest| - i
  {
    var args := prefix + rest;
    if i < |rest| {
      assert args[|prefix| + i] == rest[i];
      if rest[i] == ScanFlag {
        if i + 1 < |rest| {
          assert args[|prefix| + i + 1] == rest[i + 1];
          ParseFromShift(AddNeedsScan(a, rest[i + 1]), prefix, rest, i + 2);
        }
      } else if rest[i] == VerboseFlag {
        ParseFromShift(a.(verbose := true), prefix, rest, i + 1);
      } else {
        ParseFromShift(a.(outdir := rest[i]), prefix, rest, i + 1);
      }
    }
  }

  /** Appending a `-scan` with nothing after it: when it is read as a flag it
      changes nothing; when it is itself the operand of a trailing `-scan`, it
      is added as a class named "-scan". */
  lemma {:induction false} ParseFromTrailingScan(a: Action, args: seq<string>, i: nat)
    requires i <= |args| && IsTokenStart(args, i)
    ensures ParseFrom(a, args + [ScanFlag], i) ==
      if IsTokenStart(args, |args|) then ParseFrom(a, args, i)
      else AddNeedsScan(ParseFrom(a, args, i), ScanFlag)
    decreases |args| - i
  {
    var ext := args + [ScanFlag];
    if i < |args| {
      TokenStartStep(args, i);
      assert ext[i] == args[i];
      if args[i] == ScanFlag {
        if i + 1 < |args| {
          assert ext[i + 1] == args[i + 1];
          ParseFromTrailingScan(AddNeedsScan(a, args[i + 1]), args, i + 2);
        } else {
          assert ext[i + 1] == ScanFlag;
        }
      } else if args[i] == VerboseFlag {
        ParseFromTrailingScan(a.(verbose := true), args, i + 1);
      } else {
        ParseFromTrailingScan(a.(outdir := args[i]), args, i + 1);
      }
    } else {
      assert ext[i] == ScanFlag;
    }
  }

  lemma TrailingScanIsIgnored(a: Action, args: seq<string>)
    requires IsTokenStart(args, |args|)
    ensures Parse(a, args + [ScanFlag]) == Parse(a, args)
  {
    ParseFromTrailingScan(a, args, 0);
  }

  /** `-scan -v`: the `-v` is a class name and verbose is not switched on. */
  lemma ScanThenVerbose(a: Action)
    ensures Parse(a, [ScanFlag, VerboseFlag]) == AddNeedsScan(a, VerboseFlag)
    ensures Parse(InitialAction, [ScanFlag, VerboseFlag]).verbose == false
  {
    ScanConsumesNext(a, VerboseFlag, []);
    ScanConsumesNext(InitialAction, VerboseFlag, []);
    assert [ScanFlag, VerboseFlag] + [] == [ScanFlag, VerboseFlag];
  }

  // ---------------------------------------------------------------------------
  // The parser as the source writes it: an iterator loop

  /** Folds `args` into the action. Always succeeds. */
  method ParseArgs(a: Action, args: seq<string>) returns (ok: bool, r: Action)
    ensures ok
    ensures forall x :: x in r.needsScanMethodNames <==> x in a.needsScanMethodNames || IsScanName(args, x)
    ensures a.needsScanMethodNames <= r.needsScanMethodNames
    ensures r.verbose <==> a.verbose || HasVerboseToken(args)
    ensures OutdirIsLast(args, 0, a.outdir, r.outdir)
    ensures r.gcContainerNames == a.gcContainerNames && r.hasScanMethodNames == a.hasScanMethodNames
    ensures r.ignoredNames == a.ignoredNames && r.badContainerNames == a.badContainerNames
    ensures r == Parse(a, args)
  {
    r := a;
    var i := 0;
    while i < |args|
      invariant i <= |args| + 1
      invariant ParseFrom(r, args, i) == Parse(a, args)
    {
      if args[i] == ScanFlag {
        i := i + 1;
        if i < |args| {
          r := AddNeedsScan(r, args[i]);
        }
      } else if args[i] == VerboseFlag {
        r := r.(verbose := true);
      } else {
        r := r.(outdir := args[i]);
      }
      i := i + 1;
    }
    ok := true;
  }
}
