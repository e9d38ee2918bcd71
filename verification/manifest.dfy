/** The asset-catalog manifest rewrite shared by the icon scripts' `main`: walk the
    `images` entries of AppIcon.appiconset/Contents.json in order, skip entries without a
    size or scale, choose each remaining entry's filename and pixel size, produce the PNG,
    record the filename in the entry when it differs, and write Contents.json back only if
    some entry changed. The scripts differ only in the name prefix, in whether an existing
    filename is kept, and in the idiom assumed when an entry has none (`Policy`). */
module Manifest {
  import opened Wrappers
  import opened Numbers

  /** One entry of `images`; a key that is absent is None. */
  datatype Entry = Entry(idiom: Option<string>, size: Option<string>, scale: Option<string>,
                         filename: Option<string>)

  /** Python truthiness of an optional string: present and not empty. */
  predicate Given(o: Option<string>) {
    o.Some? && o.value != ""
  }

  /** How one script names its files. */
  datatype Policy = Policy(prefix: string, marketingName: string, keepExisting: bool, defaultIdiom: string)

  /** `gen_app_icons.py` reads the idiom with no default, so a missing idiom is formatted as
      "None". */
  const GEN_APP_ICONS: Policy := Policy("icon_", "icon_marketing_1024.png", true, "None")
  const QUIZ_LIST: Policy := Policy("AppIcon_quizlist_", "AppIcon_quizlist_1024.png", false, "iphone")
  const QUIZ_BUBBLE: Policy := Policy("AppIcon_quizbubble_", "AppIcon_quizbubble_1024.png", true, "iphone")
  const GOAL: Policy := Policy("AppIcon_goal_", "AppIcon_goal_1024.png", true, "iphone")
  const FROM_MASTER: Policy := Policy("AppIcon_", "AppIcon_1024.png", true, "iphone")

  const MARKETING_IDIOM: string := "ios-marketing"
  const MARKETING_PX: int := 1024

  /** s with every c removed (`str.replace(c, '')`). */
  function Without(s: string, c: char): (r: string)
    ensures forall i :: 0 <= i < |r| ==> r[i] != c
    ensures |r| <= |s|
  {
    if s == [] then [] else (if s[0] == c then [] else [s[0]]) + Without(s[1..], c)
  }

  /** `px_from(size, scale)`: the integer part of the number before the first 'x' of the
      size, times the scale with its 'x' removed; None where Python raises ValueError. */
  function PxFrom(size: string, scale: string): Option<int> {
    var base := ParseFloatTrunc(size[..IndexOf(size, 'x')]);
    var factor := ParseInt(Without(scale, 'x'));
    if base.Some? && factor.Some? then Some(base.value * factor.value) else None
  }

  /** "" for "1x", otherwise "@" and the scale. */
  function ScaleTag(scale: string): string {
    if scale == "1x" then "" else "@" + scale
  }

  /** `f"{prefix}{idiom}_{size}{scale_tag}.png".replace(' ', '')`. */
  function DerivedName(p: Policy, idiom: string, size: string, scale: string): string {
    Without(p.prefix + idiom + "_" + size + ScaleTag(scale) + ".png", ' ')
  }

  /** `item.get('filename') or name` when the script keeps existing names, else `name`. */
  function Chosen(p: Policy, e: Entry, name: string): string {
    if p.keepExisting && Given(e.filename) then e.filename.value else name
  }

  /** What the loop body does with one entry. `BadSize`: `px_from` raised. */
  datatype Plan = Skip | BadSize | Assign(filename: string, px: int)

  function PlanEntry(p: Policy, e: Entry): Plan {
    if !Given(e.size) || !Given(e.scale) then Skip
    else
      var idiom := e.idiom.GetOr(p.defaultIdiom);
      if idiom == MARKETING_IDIOM then Assign(Chosen(p, e, p.marketingName), MARKETING_PX)
      else
        match PxFrom(e.size.value, e.scale.value)
        case None => BadSize
        case Some(px) => Assign(Chosen(p, e, DerivedName(p, idiom, e.size.value, e.scale.value)), px)
  }

  /** One PNG the loop produces (or, for `gen_app_icons.py`, produces unless it exists). */
  datatype Job = Job(filename: string, px: int)

  /** `GenerateFailed`: producing the PNG raised (a renderer's ZeroDivisionError, a struct
      packing error, a failing `sips`). */
  datatype Crash = SizeNotANumber | GenerateFailed

  datatype Outcome = Completed | Crashed(at: nat, reason: Crash)

  /** The entries after the loop, whether `changed` was set, the PNGs produced in order,
      and whether the loop finished. */
  datatype RunResult = RunResult(entries: seq<Entry>, changed: bool, jobs: seq<Job>, outcome: Outcome)

  /** The loop body's decision for one entry; a script's is `PlanEntry` with its policy. */
  type Planner = Entry -> Plan

  function Planning(p: Policy): Planner {
    e => PlanEntry(p, e)
  }

  /** The loop over `es`, where `ok(filename, px)` says whether producing that PNG
      succeeds. An exception ends the script: the entries from the failing one on stay as
      they were. */
  function Rewrite(plan: Planner, es: seq<Entry>, ok: (string, int) -> bool): (r: RunResult)
    ensures |r.entries| == |es|
    decreases |es|
  {
    if es == [] then RunResult([], false, [], Completed)
    else Step(plan, Rewrite(plan, es[..|es| - 1], ok), es[|es| - 1], |es| - 1, ok)
  }

  /** One iteration, on entry e at index n, after the loop has reached result r. */
  function Step(plan: Planner, r: RunResult, e: Entry, n: nat, ok: (string, int) -> bool): (r': RunResult)
    ensures |r'.entries| == |r.entries| + 1
  {
    if r.outcome.Crashed? then r.(entries := r.entries + [e])
    else
      match plan(e)
      case Skip => r.(entries := r.entries + [e])
      case BadSize => r.(entries := r.entries + [e], outcome := Crashed(n, SizeNotANumber))
      case Assign(f, px) =>
        if !ok(f, px) then
          r.(entries := r.entries + [e], jobs := r.jobs + [Job(f, px)], outcome := Crashed(n, GenerateFailed))
        else
          RunResult(r.entries + [e.(filename := Some(f))], r.changed || e.filename != Some(f),
                    r.jobs + [Job(f, px)], Completed)
  }

  // ----- The loop itself -----

  /** The `for item in images` loop, updating the entries in place. */
  method UpdateManifest(images: array<Entry>, plan: Planner, ok: (string, int) -> bool)
    returns (changed: bool, jobs: seq<Job>, outcome: Outcome)
    modifies images
    ensures var r := Rewrite(plan, old(images[..]), ok);
      images[..] == r.entries && changed == r.changed && jobs == r.jobs && outcome == r.outcome
  {
    ghost var orig := images[..];
    ghost var goal := Rewrite(plan, orig, ok);
    ghost var r := Rewrite(plan, [], ok);
    RunRewrite(plan, orig, 0, ok);
    assert orig[..0] == [];
    changed, jobs, outcome := false, [], Completed;
    var i := 0;
    while i < images.Length
      invariant 0 <= i <= images.Length
      invariant Run(plan, orig, i, r, ok) == goal
      invariant |r.entries| == i && r.outcome == Completed
      invariant forall k :: 0 <= k < i ==> images[k] == r.entries[k]
      invariant forall k :: i <= k < images.Length ==> images[k] == orig[k]
      invariant changed == r.changed && jobs == r.jobs
    {
      var e := images[i];
      ghost var next := Step(plan, r, e, i, ok);
      if next.outcome.Crashed? {
        CrashAt(plan, orig, i, r, ok, images[..]);
      }
      r := next;
      var decision := plan(e);
      if decision.BadSize? {
        outcome := Crashed(i, SizeNotANumber);
        return;
      }
      if decision.Assign? {
        var f, px := decision.filename, decision.px;
        jobs := jobs + [Job(f, px)];
        if !ok(f, px) {
          outcome := Crashed(i, GenerateFailed);
          return;
        }
        if e.filename != Some(f) {
          images[i] := e.(filename := Some(f));
          changed := true;
        }
        assert r.entries[i] == images[i];
      }
      i := i + 1;
    }
    SameEntries(r, images[..]);
  }

  /** The loop run forward from entry i, having reached r. */
  function Run(plan: Planner, es: seq<Entry>, i: nat, r: RunResult, ok: (string, int) -> bool): RunResult
    requires i <= |es|
    decreases |es| - i
  {
    if i == |es| then r else Run(plan, es, i + 1, Step(plan, r, es[i], i, ok), ok)
  }

  /** Running forward from the result on a prefix finishes the whole run. */
  lemma {:induction false} RunRewrite(plan: Planner, es: seq<Entry>, i: nat, ok: (string, int) -> bool)
    requires i <= |es|
    ensures Run(plan, es, i, Rewrite(plan, es[..i], ok), ok) == Rewrite(plan, es, ok)
    decreases |es| - i
  {
    if i == |es| {
      assert es[..i] == es;
    } else {
      RewriteSnoc(plan, es, i, ok);
      RunRewrite(plan, es, i + 1, ok);
    }
  }

  /** The entry at i raises: the run ends with the entries as they are. */
  lemma CrashAt(plan: Planner, es: seq<Entry>, i: nat, r: RunResult, ok: (string, int) -> bool, cur: seq<Entry>)
    requires i < |es| == |cur| && |r.entries| == i
    requires Step(plan, r, es[i], i, ok).outcome.Crashed?
    requires forall k :: 0 <= k < i ==> cur[k] == r.entries[k]
    requires forall k :: i <= k < |es| ==> cur[k] == es[k]
    ensures Run(plan, es, i, r, ok) == Step(plan, r, es[i], i, ok).(entries := cur)
  {
    var r' := Step(plan, r, es[i], i, ok);
    assert r'.entries == r.entries + [es[i]];
    RunCrashed(plan, es, i + 1, r', ok, cur);
  }

  /** After a crash, running on leaves the remaining entries as they are. */
  lemma {:induction false} RunCrashed(plan: Planner, es: seq<Entry>, i: nat, r: RunResult,
                                      ok: (string, int) -> bool, cur: seq<Entry>)
    requires i <= |es| == |cur| && |r.entries| == i && r.outcome.Crashed?
    requires forall k :: 0 <= k < i ==> cur[k] == r.entries[k]
    requires forall k :: i <= k < |es| ==> cur[k] == es[k]
    ensures Run(plan, es, i, r, ok) == r.(entries := cur)
    decreases |es| - i
  {
    if i == |es| {
      assert cur == r.entries;
    } else {
      RunCrashed(plan, es, i + 1, r.(entries := r.entries + [es[i]]), ok, cur);
    }
  }

  /** A run's result with its entries replaced by equal ones is the same result. */
  lemma SameEntries(r: RunResult, cur: seq<Entry>)
    requires |r.entries| == |cur|
    requires forall k :: 0 <= k < |cur| ==> cur[k] == r.entries[k]
    ensures r.(entries := cur) == r
  {
    assert cur == r.entries;
  }

  /** The loop's result after one more entry is one more `Step`. */
  lemma RewriteSnoc(plan: Planner, es: seq<Entry>, i: nat, ok: (string, int) -> bool)
    requires i < |es|
    ensures Rewrite(plan, es[..i + 1], ok) == Step(plan, Rewrite(plan, es[..i], ok), es[i], i, ok)
  {
    assert es[..i + 1][..i] == es[..i];
  }

  /** Once the loop has crashed, the remaining entries are left as they are. */
  lemma {:induction false} RewriteAfterCrash(plan: Planner, es: seq<Entry>, ok: (string, int) -> bool, k: nat)
    requires k <= |es|
    requires Rewrite(plan, es[..k], ok).outcome.Crashed?
    ensures var r := Rewrite(plan, es[..k], ok);
      Rewrite(plan, es, ok) == r.(entries := r.entries + es[k..])
    decreases |es| - k
  {
    if k < |es| {
      assert es[..|es| - 1][..k] == es[..k];
      RewriteAfterCrash(plan, es[..|es| - 1], ok, k);
      assert es[..|es| - 1][k..] + [es[|es| - 1]] == es[k..];
    } else {
      assert es[..k] == es;
    }
  }

  // ----- What the loop guarantees -----

  /** The loop only ever changes the filename of an entry, and leaves skipped entries
      untouched. */
  lemma {:induction false} RewriteOnlyFilenames(plan: Planner, es: seq<Entry>, ok: (string, int) -> bool)
    ensures var r := Rewrite(plan, es, ok);
      forall i :: 0 <= i < |es| ==>
        && r.entries[i] == es[i].(filename := r.entries[i].filename)
        && (plan(es[i]).Skip? ==> r.entries[i] == es[i])
  {
    if es != [] {
      var n := |es| - 1;
      var r := Rewrite(plan, es, ok);
      var r0 := Rewrite(plan, es[..n], ok);
      RewriteOnlyFilenames(plan, es[..n], ok);
      assert forall i :: 0 <= i < n ==> r.entries[i] == r0.entries[i] && es[i] == es[..n][i];
    }
  }

  /** `changed` is set exactly when some entry ends up different, that is, when some
      entry was given a filename it did not already have. */
  lemma {:induction false} RewriteChangedIff(plan: Planner, es: seq<Entry>, ok: (string, int) -> bool)
    ensures var r := Rewrite(plan, es, ok);
      r.changed <==> exists i :: 0 <= i < |es| && r.entries[i] != es[i]
  {
    if es != [] {
      var n := |es| - 1;
      var r := Rewrite(plan, es, ok);
      var r0 := Rewrite(plan, es[..n], ok);
      RewriteChangedIff(plan, es[..n], ok);
      assert forall i :: 0 <= i < n ==> r.entries[i] == r0.entries[i] && es[i] == es[..n][i];
      if r0.changed {
        var i :| 0 <= i < n && r0.entries[i] != es[..n][i];
        assert r.entries[i] != es[i];
      }
      if exists i :: 0 <= i < |es| && r.entries[i] != es[i] {
        var i :| 0 <= i < |es| && r.entries[i] != es[i];
        if i < n {
          assert r0.entries[i] != es[..n][i];
        }
      }
    }
  }

  /** When the loop finishes, every entry it did not skip carries the filename chosen for
      it. */
  lemma {:induction false} RewriteAssigns(plan: Planner, es: seq<Entry>, ok: (string, int) -> bool)
    requires Rewrite(plan, es, ok).outcome == Completed
    ensures var r := Rewrite(plan, es, ok);
      forall i :: 0 <= i < |es| && plan(es[i]).Assign? ==>
        r.entries[i].filename == Some(plan(es[i]).filename)
  {
    if es != [] {
      var n := |es| - 1;
      var r := Rewrite(plan, es, ok);
      var r0 := Rewrite(plan, es[..n], ok);
      RewriteAssigns(plan, es[..n], ok);
      assert forall i :: 0 <= i < n ==> r.entries[i] == r0.entries[i] && es[i] == es[..n][i];
    }
  }

  /** A planner that keeps a name already given: the entries that have one come out of the
      loop as they went in. */
  ghost predicate KeepsGivenNames(plan: Planner) {
    forall e :: plan(e).Assign? && Given(e.filename) ==> Some(plan(e).filename) == e.filename
  }

  lemma {:induction false} RewriteKeepsNamed(plan: Planner, es: seq<Entry>, ok: (string, int) -> bool)
    requires KeepsGivenNames(plan)
    ensures var r := Rewrite(plan, es, ok);
      forall i :: 0 <= i < |es| && Given(es[i].filename) ==> r.entries[i] == es[i]
  {
    if es != [] {
      var n := |es| - 1;
      var r := Rewrite(plan, es, ok);
      var r0 := Rewrite(plan, es[..n], ok);
      RewriteKeepsNamed(plan, es[..n], ok);
      assert forall i :: 0 <= i < n ==> r.entries[i] == r0.entries[i] && es[i] == es[..n][i];
    }
  }

  /** A planner whose decision survives recording the filename it chose. */
  ghost predicate Stable(plan: Planner) {
    forall e :: plan(e).Assign? ==> plan(e.(filename := Some(plan(e).filename))) == plan(e)
  }

  /** With a stable planner, a second run over the first run's output plans the same PNGs
      and changes nothing, so Contents.json is not written again. */
  lemma {:induction false} RewriteIdempotent(plan: Planner, es: seq<Entry>, ok: (string, int) -> bool)
    requires Stable(plan)
    requires Rewrite(plan, es, ok).outcome == Completed
    ensures var r := Rewrite(plan, es, ok);
      Rewrite(plan, r.entries, ok) == r.(changed := false)
  {
    if es != [] {
      var n := |es| - 1;
      var r := Rewrite(plan, es, ok);
      var r0 := Rewrite(plan, es[..n], ok);
      RewriteIdempotent(plan, es[..n], ok);
      assert r.entries[..n] == r0.entries;
    }
  }

  // ----- The scripts' planners -----

  /** A script that keeps existing names never replaces a non-empty filename. */
  lemma PlanKeepsGivenNames(p: Policy)
    requires p.keepExisting
    ensures KeepsGivenNames(Planning(p))
  {
  }

  /** `prepare_app_icons_quiz_list.py` ignores the filename already in the entry: the plan,
      and hence the name written, depends on the idiom, size and scale alone. */
  lemma PlanIgnoresOldName(p: Policy, e: Entry, previous: Option<string>)
    requires !p.keepExisting
    ensures PlanEntry(p, e.(filename := previous)) == PlanEntry(p, e)
  {
  }

  /** A chosen filename is never empty, so it is kept as an existing name the next time. */
  lemma ChosenNonEmpty(p: Policy, e: Entry)
    requires p.marketingName != []
    ensures PlanEntry(p, e).Assign? ==> PlanEntry(p, e).filename != []
  {
    if PlanEntry(p, e).Assign? && !(p.keepExisting && Given(e.filename)) {
      var idiom := e.idiom.GetOr(p.defaultIdiom);
      if idiom != MARKETING_IDIOM {
        var full := p.prefix + idiom + "_" + e.size.value + ScaleTag(e.scale.value) + ".png";
        WithoutKeepsOthers(full, ' ', |full| - 1);
      }
    }
  }

  /** Removing c keeps at least one character when some character is not c. */
  lemma {:induction false} WithoutKeepsOthers(s: string, c: char, k: nat)
    requires k < |s| && s[k] != c
    ensures Without(s, c) != []
  {
    if s[0] == c {
      WithoutKeepsOthers(s[1..], c, k - 1);
    }
  }

  /** Every script's planner is stable: recording the chosen filename does not change the
      plan for the entry. */
  lemma PlanStable(p: Policy)
    requires p.marketingName != []
    ensures Stable(Planning(p))
  {
    forall e | Planning(p)(e).Assign?
      ensures Planning(p)(e.(filename := Some(Planning(p)(e).filename))) == Planning(p)(e)
    {
      ChosenNonEmpty(p, e);
    }
  }

  /** A derived name has no spaces, whatever the idiom or size contain. */
  lemma DerivedNameNoSpaces(p: Policy, idiom: string, size: string, scale: string)
    ensures ' ' !in DerivedName(p, idiom, size, scale)
  {
  }

  // ----- main -----

  /** How a manifest script ends. `Done` carries the PNGs produced and the Contents.json
      written back, if any. */
  datatype RunOutcome =
    | ContentsMissing
    | MasterMissing(path: string)
    | Aborted(at: nat, reason: Crash, jobs: seq<Job>)
    | Done(jobs: seq<Job>, written: Option<seq<Entry>>)

  /** `main()`: exit when Contents.json is missing, otherwise run the loop over its
      entries and write them back only when `changed`. */
  method RunScript(p: Policy, contents: Option<seq<Entry>>, ok: (string, int) -> bool) returns (o: RunOutcome)
    ensures !o.MasterMissing?
    ensures contents.None? <==> o == ContentsMissing
    ensures contents.Some? ==>
      var r := Rewrite(Planning(p), contents.value, ok);
      && (o.Done? <==> r.outcome == Completed)
      && (o.Done? ==> o.jobs == r.jobs && (o.written.Some? <==> r.changed))
      && (o.Done? && o.written.Some? ==> o.written.value == r.entries)
      && (o.Aborted? ==> r.outcome == Crashed(o.at, o.reason) && o.jobs == r.jobs)
  {
    if contents.None? {
      return ContentsMissing;
    }
    var es := contents.value;
    var images := new Entry[|es|](i requires 0 <= i < |es| => es[i]);
    assert images[..] == es;
    var changed, jobs, outcome := UpdateManifest(images, Planning(p), ok);
    if outcome.Crashed? {
      return Aborted(outcome.at, outcome.reason, jobs);
    }
    if changed {
      return Done(jobs, Some(images[..]));
    }
    return Done(jobs, None);
  }

  const DEFAULT_MASTER: string := "branding/app_icon_1024.png"

  /** `prepare_app_icons_from_master.py`: the master icon is `APP_ICON_MASTER` or the
      default path, and it must exist before Contents.json is even looked at. */
  method FromMaster(env: map<string, string>, fileExists: string -> bool, contents: Option<seq<Entry>>,
                    ok: (string, int) -> bool) returns (o: RunOutcome)
    ensures var master := if "APP_ICON_MASTER" in env then env["APP_ICON_MASTER"] else DEFAULT_MASTER;
      && (!fileExists(master) <==> o == MasterMissing(master))
      && (fileExists(master) && contents.None? <==> o == ContentsMissing)
      && (fileExists(master) && contents.Some? ==>
            var r := Rewrite(Planning(FROM_MASTER), contents.value, ok);
            && (o.Done? <==> r.outcome == Completed)
            && (o.Done? ==> o.jobs == r.jobs && (o.written.Some? <==> r.changed))
            && (o.Done? && o.written.Some? ==> o.written.value == r.entries)
            && (o.Aborted? ==> r.outcome == Crashed(o.at, o.reason) && o.jobs == r.jobs))
  {
    var master := if "APP_ICON_MASTER" in env then env["APP_ICON_MASTER"] else DEFAULT_MASTER;
    if !fileExists(master) {
      return MasterMissing(master);
    }
    o := RunScript(FROM_MASTER, contents, ok);
  }

  // ----- Sizes -----

  /** ("20x20", "3x") gives 60, and ("83.5x83.5", "2x") gives 166: the base is truncated
      before it is scaled. */
  lemma PxFromExamples()
    ensures PxFrom("20x20", "3x") == Some(60)
    ensures PxFrom("83.5x83.5", "2x") == Some(166)
  {
    PxFromWhole();
    PxFromHalf();
  }

  lemma PxFromWhole()
    ensures PxFrom("20x20", "3x") == Some(60)
  {
    assert ShowInt(20) == "20";
    assert ShowInt(3) == "3";
    PxFromShown(20, [], false, 3);
    assert ShowInt(20) + "x" + ShowInt(20) == "20x20";
  }

  lemma PxFromHalf()
    ensures PxFrom("83.5x83.5", "2x") == Some(166)
  {
    var size := ShowInt(83) + "." + "5";
    assert ShowInt(83) == "83";
    assert size == "83.5";
    assert size + "x" + size == "83.5x83.5";
    assert ShowInt(2) + "x" == "2x";
    PxFromShown(83, "5", true, 2);
  }

  /** A size written as a whole number of points, with any fractional part, times a
      whole-number scale ("<n>x"): px_from is the product of the whole numbers. */
  lemma PxFromShown(points: nat, frac: string, dotted: bool, scale: nat)
    requires AllDigits(frac)
    ensures var size := if dotted then ShowInt(points) + "." + frac else ShowInt(points);
      PxFrom(size + "x" + size, ShowInt(scale) + "x") == Some(points * scale)
  {
    var size := if dotted then ShowInt(points) + "." + frac else ShowInt(points);
    var full := size + "x" + size;
    NoXInNumeral(points, frac, dotted);
    IndexOfAfter(size, 'x', size);
    assert full[..|size|] == size;
    ParseFloatOfInt(points, frac, dotted);
    WithoutTrailing(ShowInt(scale), 'x');
    ParseShowInt(scale);
  }

  lemma NoXInNumeral(n: nat, frac: string, dotted: bool)
    requires AllDigits(frac)
    ensures var s := if dotted then ShowInt(n) + "." + frac else ShowInt(n);
      forall i :: 0 <= i < |s| ==> s[i] != 'x'
  {
  }

  lemma {:induction false} IndexOfAfter(s: string, c: char, rest: string)
    requires forall i :: 0 <= i < |s| ==> s[i] != c
    ensures IndexOf(s + [c] + rest, c) == |s|
  {
    if s != [] {
      assert (s + [c] + rest)[1..] == s[1..] + [c] + rest;
      IndexOfAfter(s[1..], c, rest);
    }
  }

  lemma {:induction false} WithoutTrailing(s: string, c: char)
    requires forall i :: 0 <= i < |s| ==> s[i] != c
    ensures Without(s + [c], c) == s
  {
    if s != [] {
      assert (s + [c])[1..] == s[1..] + [c];
      WithoutTrailing(s[1..], c);
    }
  }
}
