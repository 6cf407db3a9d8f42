/**
 * The published update channels: `PublishedChannels.advance` folds one version into a table of
 * slots.  Each major line has a slot per channel (stable, rc, beta, alpha); every experimental
 * version has a slot of its own core version.  The nested tables of the source are flattened into
 * one map, which loses nothing but empty tables.
 */
module Channels {
  import opened Wrappers

  datatype Stage = Alpha(n: nat) | Beta(n: nat) | Exp(n: nat) | Rc(n: nat) | Release

  datatype Version = Version(major: nat, minor: nat, patch: nat, stage: Stage, build: string)

  datatype Channel = Stable | Candidate | BetaLine | AlphaLine

  datatype Slot = Line(major: nat, channel: Channel) | Trial(major: nat, minor: nat, patch: nat)

  type Document = map<Slot, Version>

  datatype Conflict = Conflict(current: Version, incoming: Version)

  // ----- the sort key: SemVer precedence, build metadata ignored -----

  /** Identifiers compare as text ("alpha" < "beta" < "exp" < "rc"), and a release comes last. */
  function Rank(s: Stage): nat {
    match s case Alpha(_) => 0 case Beta(_) => 1 case Exp(_) => 2 case Rc(_) => 3 case Release => 4
  }

  function Number(s: Stage): nat {
    if s.Release? then 0 else s.n
  }

  predicate Below(a: Version, b: Version) {
    if a.major != b.major then a.major < b.major
    else if a.minor != b.minor then a.minor < b.minor
    else if a.patch != b.patch then a.patch < b.patch
    else if Rank(a.stage) != Rank(b.stage) then Rank(a.stage) < Rank(b.stage)
    else Number(a.stage) < Number(b.stage)
  }

  /** The pre-release identifier as it is written, None for a release. */
  function Label(s: Stage): Option<string> {
    match s
    case Alpha(_) => Some("alpha")
    case Beta(_) => Some("beta")
    case Exp(_) => Some("exp")
    case Rc(_) => Some("rc")
    case Release => None
  }

  /** Text order, character by character; a prefix comes first. */
  predicate TextBefore(a: string, b: string) {
    b != [] && (a == [] || a[0] < b[0] || (a[0] == b[0] && TextBefore(a[1..], b[1..])))
  }

  /** Pre-releases by the text of their identifier, then by number, and all of them before the release. */
  predicate StageBefore(a: Stage, b: Stage) {
    && Label(a).Some?
    && (Label(b).None? || TextBefore(Label(a).value, Label(b).value) || (Label(a) == Label(b) && Number(a) < Number(b)))
  }

  /** SemVer precedence: the first of major, minor, patch and pre-release that differs decides. */
  lemma Precedence(a: Version, b: Version)
    ensures Below(a, b) <==>
            || a.major < b.major
            || (a.major == b.major && a.minor < b.minor)
            || (a.major == b.major && a.minor == b.minor && a.patch < b.patch)
            || (a.major == b.major && a.minor == b.minor && a.patch == b.patch && StageBefore(a.stage, b.stage))
    ensures SameKey(a, b) <==> a.(build := b.build) == b
  {
    LabelOrder(a.stage, b.stage);
    LabelOrder(b.stage, a.stage);
  }

  lemma LabelOrder(a: Stage, b: Stage)
    ensures StageBefore(a, b) <==> Rank(a) < Rank(b) || (Rank(a) == Rank(b) && Number(a) < Number(b))
  {
    assert TextBefore("alpha", "beta") && TextBefore("alpha", "exp") && TextBefore("alpha", "rc");
    assert TextBefore("beta", "exp") && TextBefore("beta", "rc") && TextBefore("exp", "rc");
    assert !TextBefore("beta", "alpha") && !TextBefore("exp", "alpha") && !TextBefore("rc", "alpha");
    assert !TextBefore("exp", "beta") && !TextBefore("rc", "beta") && !TextBefore("rc", "exp");
    Irreflexive("alpha");
    Irreflexive("beta");
    Irreflexive("exp");
    Irreflexive("rc");
  }

  lemma Irreflexive(s: string)
    ensures !TextBefore(s, s)
  {
  }

  predicate SameKey(a: Version, b: Version) {
    !Below(a, b) && !Below(b, a)
  }

  function Slots(v: Version): seq<Slot> {
    var all := [Line(v.major, Stable), Line(v.major, Candidate), Line(v.major, BetaLine), Line(v.major, AlphaLine)];
    match v.stage
    case Release => all
    case Rc(_) => all[1..]
    case Beta(_) => all[2..]
    case Alpha(_) => all[3..]
    case Exp(_) => [Trial(v.major, v.minor, v.patch)]
  }

  function Steps(c: Channel): nat {
    match c case Stable => 0 case Candidate => 1 case BetaLine => 2 case AlphaLine => 3
  }

  function LeastStep(s: Stage): nat {
    match s case Alpha(_) => 3 case Beta(_) => 2 case Rc(_) => 1 case _ => 0
  }

  /** A version reaches the channels that accept something at most as stable as itself. */
  lemma SlotMembership(v: Version, slot: Slot)
    ensures slot in Slots(v) <==>
            match slot
            case Line(m, c) => m == v.major && !v.stage.Exp? &&
                               Steps(c) >= LeastStep(v.stage)
            case Trial(m, n, p) => v.stage.Exp? && (m, n, p) == (v.major, v.minor, v.patch)
  {
  }

  // ----- advance -----

  /** The slots still to visit are taken in order; a conflict stops with the earlier ones written. */
  function Visit(doc: Document, slots: seq<Slot>, v: Version, changed: bool): (Document, Result<bool, Conflict>)
    decreases slots
  {
    if slots == [] then (doc, Ok(changed))
    else if slots[0] in doc && SameKey(doc[slots[0]], v) && doc[slots[0]] != v
    then (doc, Err(Conflict(doc[slots[0]], v)))
    else if slots[0] in doc && !Below(doc[slots[0]], v) then Visit(doc, slots[1..], v, changed)
    else Visit(doc[slots[0] := v], slots[1..], v, true)
  }

  function Advance(doc: Document, v: Version): Option<Document> {
    var (after, result) := Visit(doc, Slots(v), v, false);
    if result.Ok? then Some(after) else None
  }

  /** `advance` over a whole list, or None when some call raises. */
  function FoldFrom(base: Document, versions: seq<Version>): Option<Document> {
    if versions == [] then Some(base) else
      var before := FoldFrom(base, versions[..|versions| - 1]);
      if before.Some? then Advance(before.value, versions[|versions| - 1]) else None
  }

  class ChannelDocument {
    var published: Document

    constructor (published: Document)
      ensures this.published == published
    {
      this.published := published;
    }

    method Advance(version: Version) returns (r: Result<bool, Conflict>)
      modifies this
      ensures (published, r) == Visit(old(published), Slots(version), version, false)
    {
      var keys := Slots(version);
      var changed := false;
      var i := 0;
      while i < |keys|
        invariant 0 <= i <= |keys|
        invariant Visit(old(published), keys, version, false) == Visit(published, keys[i..], version, changed)
      {
        var key := keys[i];
        i := i + 1;
        assert keys[i - 1..][1..] == keys[i..];
        if key in published {
          var current := published[key];
          if SameKey(current, version) && current != version { return Err(Conflict(current, version)); }
          if !Below(current, version) { continue; }
        }
        published := published[key := version];
        changed := true;
      }
      return Ok(changed);
    }
  }

  // ----- each slot holds the maximum -----

  /** No two versions of the list share a sort key without being the same release. */
  ghost predicate ConflictFree(versions: seq<Version>) {
    forall i, j | 0 <= i < |versions| && 0 <= j < |versions| && SameKey(versions[i], versions[j]) ::
      versions[i] == versions[j]
  }

  /** `v` is a largest version of the list among those that reach the slot. */
  ghost predicate IsMaximum(versions: seq<Version>, slot: Slot, v: Version) {
    && v in versions && slot in Slots(v)
    && forall i | 0 <= i < |versions| && slot in Slots(versions[i]) :: !Below(v, versions[i])
  }

  ghost predicate HoldsMaxima(doc: Document, versions: seq<Version>) {
    && (forall slot | slot in doc :: IsMaximum(versions, slot, doc[slot]))
    && forall i, slot | 0 <= i < |versions| && slot in Slots(versions[i]) :: slot in doc
  }

  /** A call that does not raise raises each of the version's slots to it and touches no other. */
  lemma {:induction false} VisitWrites(doc: Document, slots: seq<Slot>, v: Version, changed: bool)
    requires forall i, j | 0 <= i < j < |slots| :: slots[i] != slots[j]
    ensures var (after, result) := Visit(doc, slots, v, changed);
            && (result.Ok? <==> forall s | s in slots && s in doc && SameKey(doc[s], v) :: doc[s] == v)
            && (result.Ok? ==> after.Keys == doc.Keys + set s | s in slots)
            && (result.Ok? ==> forall s | s in after ::
                  after[s] == if s in slots && (s !in doc || Below(doc[s], v)) then v else doc[s])
    decreases slots
  {
    if slots != [] {
      var skip := slots[0] in doc && !Below(doc[slots[0]], v);
      var next := if skip then doc else doc[slots[0] := v];
      var flag := changed || !skip;
      assert forall s | s in slots :: s == slots[0] || s in slots[1..];
      VisitWrites(next, slots[1..], v, flag);
    }
  }

  /** The answer tells whether the table changed; a refusal names a stored release of equal key as the obstacle. */
  lemma {:induction false} VisitAnswers(doc: Document, slots: seq<Slot>, v: Version, changed: bool)
    requires forall i, j | 0 <= i < j < |slots| :: slots[i] != slots[j]
    ensures var (after, result) := Visit(doc, slots, v, changed);
            match result
            case Ok(answer) => answer <==> changed || after != doc
            case Err(conflict) =>
              conflict.incoming == v && SameKey(conflict.current, v) && conflict.current != v
              && exists s :: s in slots && s in doc && doc[s] == conflict.current
    decreases slots
  {
    if slots != [] {
      var skip := slots[0] in doc && !Below(doc[slots[0]], v);
      var next := if skip then doc else doc[slots[0] := v];
      VisitAnswers(next, slots[1..], v, changed || !skip);
      VisitWrites(next, slots[1..], v, changed || !skip);
      VisitMeetsOld(doc, slots, v);
      if !skip { assert slots[0] in doc ==> doc[slots[0]] != v; }
    }
  }

  lemma VisitMeetsOld(doc: Document, slots: seq<Slot>, v: Version)
    requires forall i, j | 0 <= i < j < |slots| :: slots[i] != slots[j]
    requires slots != []
    ensures forall s | s in slots[1..] :: s in slots && s != slots[0]
  {
  }

  /** A call that raises has done exactly what it does for the slots before the obstacle. */
  lemma {:induction false} RaiseKeepsEarlier(doc: Document, slots: seq<Slot>, v: Version, changed: bool)
    returns (n: nat)
    requires forall i, j | 0 <= i < j < |slots| :: slots[i] != slots[j]
    requires Visit(doc, slots, v, changed).1.Err?
    ensures n < |slots| && slots[n] in doc && SameKey(doc[slots[n]], v) && doc[slots[n]] != v
    ensures Visit(doc, slots[..n], v, changed).1.Ok?
    ensures Visit(doc, slots, v, changed).0 == Visit(doc, slots[..n], v, changed).0
    decreases slots
  {
    if slots[0] in doc && SameKey(doc[slots[0]], v) && doc[slots[0]] != v { return 0; }
    var skip := slots[0] in doc && !Below(doc[slots[0]], v);
    var next := if skip then doc else doc[slots[0] := v];
    n := RaiseKeepsEarlier(next, slots[1..], v, changed || !skip);
    VisitMeetsOld(doc, slots, v);
    assert slots[1..][n] == slots[n + 1];
    assert slots[..n + 1][1..] == slots[1..][..n];
    n := n + 1;
  }

  lemma AdvanceWrites(doc: Document, v: Version)
    ensures Advance(doc, v).Some? <==> forall s | s in Slots(v) && s in doc && SameKey(doc[s], v) :: doc[s] == v
    ensures Advance(doc, v).Some? ==>
              var after := Advance(doc, v).value;
              && after.Keys == doc.Keys + (set s | s in Slots(v))
              && forall s | s in after ::
                   after[s] == if s in Slots(v) && (s !in doc || Below(doc[s], v)) then v else doc[s]
  {
    VisitWrites(doc, Slots(v), v, false);
  }

  lemma {:induction false} FoldHoldsMaxima(versions: seq<Version>)
    requires ConflictFree(versions)
    ensures FoldFrom(map[], versions).Some? && HoldsMaxima(FoldFrom(map[], versions).value, versions)
  {
    if versions != [] {
      var before, v := versions[..|versions| - 1], versions[|versions| - 1];
      FoldHoldsMaxima(before);
      assert before + [v] == versions;
      MaximaAdmit(FoldFrom(map[], before).value, before, v);
      MaximaExtend(FoldFrom(map[], before).value, before, v);
    }
  }

  lemma MaximaAdmit(doc: Document, before: seq<Version>, v: Version)
    requires HoldsMaxima(doc, before) && ConflictFree(before + [v])
    ensures Advance(doc, v).Some?
  {
    AdvanceWrites(doc, v);
    forall s | s in Slots(v) && s in doc && SameKey(doc[s], v) ensures doc[s] == v {
      assert IsMaximum(before, s, doc[s]);
      var i :| 0 <= i < |before| && before[i] == doc[s];
      assert (before + [v])[i] == doc[s] && (before + [v])[|before|] == v;
    }
  }

  lemma MaximaExtend(doc: Document, before: seq<Version>, v: Version)
    requires HoldsMaxima(doc, before) && Advance(doc, v).Some?
    ensures HoldsMaxima(Advance(doc, v).value, before + [v])
  {
    AdvanceWrites(doc, v);
    var after, all := Advance(doc, v).value, before + [v];
    assert all[|before|] == v;
    forall s | s in after ensures IsMaximum(all, s, after[s]) {
      if s in doc {
        assert IsMaximum(before, s, doc[s]);
        var i :| 0 <= i < |before| && before[i] == doc[s];
        assert all[i] == doc[s];
      }
      forall i | 0 <= i < |all| && s in Slots(all[i]) ensures !Below(after[s], all[i]) {
        if i < |before| { assert before[i] == all[i] && s in doc; }
      }
    }
    forall i, s | 0 <= i < |all| && s in Slots(all[i]) ensures s in after {
      if i < |before| { assert before[i] == all[i]; }
    }
  }

  ghost predicate SameVersions(a: seq<Version>, b: seq<Version>) {
    forall v :: v in a <==> v in b
  }

  /**
   * Over conflict-free lists the table is a function of the set of versions: neither the order
   * nor repetition matters.
   */
  lemma OrderIndependent(a: seq<Version>, b: seq<Version>)
    requires ConflictFree(a) && SameVersions(a, b)
    ensures FoldFrom(map[], a).Some? && FoldFrom(map[], a) == FoldFrom(map[], b)
  {
    ConflictFreeTransfers(a, b);
    FoldHoldsMaxima(a);
    FoldHoldsMaxima(b);
    MaximaAgree(FoldFrom(map[], a).value, a, FoldFrom(map[], b).value, b);
  }

  lemma MaximaAgree(x: Document, a: seq<Version>, y: Document, b: seq<Version>)
    requires ConflictFree(a) && ConflictFree(b) && HoldsMaxima(x, a) && HoldsMaxima(y, b) && SameVersions(a, b)
    ensures x == y
  {
  }

  lemma ConflictFreeTransfers(a: seq<Version>, b: seq<Version>)
    requires ConflictFree(a) && SameVersions(a, b)
    ensures ConflictFree(b)
  {
    forall i, j | 0 <= i < |b| && 0 <= j < |b| && SameKey(b[i], b[j]) ensures b[i] == b[j] {
      assert b[i] in a && b[j] in a;
    }
  }

  /**
   * Conflict-freedom is exactly what the caller needs: every ordering of a list folds without
   * raising if and only if no two of its releases share a sort key.
   */
  lemma EveryOrderFoldsIffConflictFree(versions: seq<Version>)
    ensures ConflictFree(versions) <==>
            forall other | multiset(other) == multiset(versions) :: FoldFrom(map[], other).Some?
  {
    if ConflictFree(versions) {
      forall other | multiset(other) == multiset(versions) ensures FoldFrom(map[], other).Some? {
        assert SameVersions(versions, other) by {
          forall v ensures v in versions <==> v in other { assert multiset(versions)[v] == multiset(other)[v]; }
        }
        OrderIndependent(versions, other);
      }
    } else {
      var i, j :| 0 <= i < j < |versions| && SameKey(versions[i], versions[j]) && versions[i] != versions[j];
      var other := BringForward(versions, i, j);
      ConflictRaises(versions[i], versions[j]);
      RaisingPrefix(other, 2);
    }
  }

  lemma BringForward(s: seq<Version>, i: nat, j: nat) returns (other: seq<Version>)
    requires i < j < |s|
    ensures multiset(other) == multiset(s) && |other| >= 2 && other[..2] == [s[i], s[j]]
  {
    var x, y, z := s[..i], s[i + 1..j], s[j + 1..];
    other := [s[i], s[j]] + (x + y + z);
    assert s == x + ([s[i]] + (y + ([s[j]] + z)));
    assert multiset(x + y + z) == multiset(x) + multiset(y) + multiset(z);
    assert multiset([s[j]] + z) == multiset{s[j]} + multiset(z);
    assert multiset(y + ([s[j]] + z)) == multiset(y) + multiset([s[j]] + z);
    assert multiset([s[i]] + (y + ([s[j]] + z))) == multiset{s[i]} + multiset(y + ([s[j]] + z));
  }

  lemma ConflictRaises(a: Version, b: Version)
    requires SameKey(a, b) && a != b
    ensures FoldFrom(map[], [a, b]).None?
  {
    Fold(map[], [], a);
    Fold(map[], [a], b);
    AdvanceWrites(map[], a);
    var doc := Advance(map[], a).value;
    AdvanceWrites(doc, b);
    assert Slots(a) == Slots(b);
    assert Slots(b)[0] in doc && doc[Slots(b)[0]] == a;
  }

  lemma Fold(base: Document, before: seq<Version>, v: Version)
    ensures FoldFrom(base, before + [v]) ==
            if FoldFrom(base, before).Some? then Advance(FoldFrom(base, before).value, v) else None
  {
    assert (before + [v])[..|before|] == before;
  }

  lemma {:induction false} RaisingPrefix(versions: seq<Version>, n: nat)
    requires n <= |versions| && FoldFrom(map[], versions[..n]).None?
    ensures FoldFrom(map[], versions).None?
  {
    if n == |versions| { assert versions[..n] == versions; } else {
      assert versions[..|versions| - 1][..n] == versions[..n];
      RaisingPrefix(versions[..|versions| - 1], n);
    }
  }

  /**
   * Without it the order does matter.  Put apart by a third version, a conflicting pair passes exactly
   * when that version is above it in every slot it reaches: there the second one is skipped unchecked.
   */
  lemma SkippedConflict(a: Version, b: Version, newer: Version)
    requires SameKey(a, b) && a != b
    ensures FoldFrom(map[], [a, b, newer]).None?
    ensures FoldFrom(map[], [a, newer, b]).Some? <==>
            Below(a, newer) && forall slot | slot in Slots(a) :: slot in Slots(newer)
  {
    ConflictRaises(a, b);
    Fold(map[], [a, b], newer);
    Fold(map[], [], a);
    Fold(map[], [a], newer);
    Fold(map[], [a, newer], b);
    assert [a, b] + [newer] == [a, b, newer] && [a] + [newer] == [a, newer] && [a, newer] + [b] == [a, newer, b];
    AdvanceWrites(map[], a);
    var one := Advance(map[], a).value;
    AdvanceWrites(one, newer);
    assert Slots(a) == Slots(b);
    forall slot | slot in Slots(a) ensures slot in one && one[slot] == a {}
    if SameKey(a, newer) {
      assert Slots(a) == Slots(newer) && Slots(a)[0] in Slots(newer);
    }
    if Advance(one, newer).Some? {
      var two := Advance(one, newer).value;
      AdvanceWrites(two, b);
      forall slot | slot in Slots(a)
        ensures slot in two && two[slot] == if slot in Slots(newer) && Below(a, newer) then newer else a
      {
        assert slot in one && one[slot] == a;
      }
      assert Slots(a)[0] in Slots(a);
    }
  }

  ghost predicate Rung(doc: Document, m: nat, c: Channel, d: Channel) {
    Line(m, c) in doc ==> Line(m, d) in doc && !Below(doc[Line(m, d)], doc[Line(m, c)])
  }

  /** Stable never exceeds rc, nor rc beta, nor beta alpha, on every major line. */
  ghost predicate Ladder(doc: Document) {
    forall m: nat, c, d | Steps(c) < Steps(d) :: Rung(doc, m, c, d)
  }

  lemma AdvanceKeepsLadder(doc: Document, v: Version)
    requires Ladder(doc) && Advance(doc, v).Some?
    ensures Ladder(Advance(doc, v).value)
  {
    AdvanceWrites(doc, v);
    forall m: nat, c, d | Steps(c) < Steps(d) ensures Rung(Advance(doc, v).value, m, c, d) {
      assert Rung(doc, m, c, d);
      AdvanceKeepsRung(doc, v, m, c, d);
    }
  }

  lemma AdvanceKeepsRung(doc: Document, v: Version, m: nat, c: Channel, d: Channel)
    requires Rung(doc, m, c, d) && Steps(c) < Steps(d) && Advance(doc, v).Some?
    ensures Rung(Advance(doc, v).value, m, c, d)
  {
    AdvanceWrites(doc, v);
    SlotMembership(v, Line(m, c));
    SlotMembership(v, Line(m, d));
  }

  lemma {:induction false} FoldKeepsLadder(base: Document, versions: seq<Version>)
    requires Ladder(base) && FoldFrom(base, versions).Some?
    ensures Ladder(FoldFrom(base, versions).value)
  {
    if versions != [] {
      var before := versions[..|versions| - 1];
      FoldKeepsLadder(base, before);
      AdvanceKeepsLadder(FoldFrom(base, before).value, versions[|versions| - 1]);
    }
  }
}
