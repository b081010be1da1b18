/** Bringing a database to the schema a binary supports (internal/storage/storage.go:102-105 and
    231-261): each migration and its version row in one transaction, in order. */
module Migrations {
  /** One transaction: committed, rolled back, or committed without the caller learning of it. */
  datatype TxFault = NoFault | RolledBack | AckLost

  /** Versions 1 to n, in order. */
  function UpTo(n: nat): (versions: seq<nat>)
    ensures |versions| == n && forall i | 0 <= i < n :: versions[i] == i + 1
  {
    seq(n, i => i + 1)
  }

  /** From version at, the version reached and whether the caller sees success. */
  function Reach(at: nat, supported: nat, fault: nat -> TxFault): (nat, bool)
    requires at <= supported
    decreases supported - at
  {
    if at == supported then (at, true)
    else
      match fault(at + 1)
      case NoFault => Reach(at + 1, supported, fault)
      case RolledBack => (at, false)
      case AckLost => (at + 1, false)
  }

  function OpenResult(at: nat, supported: nat, fault: nat -> TxFault): (nat, bool) {
    if at > supported then (at, false) else Reach(at, supported, fault)
  }

  class Migrator {
    var versions: seq<nat>
    ghost var applied: seq<nat>

    constructor ()
      ensures At(0)
    {
      versions, applied := [], [];
    }

    /** Exactly the migrations 1 to n have run, once each and in order, and are recorded. */
    ghost predicate At(n: nat)
      reads this
    {
      versions == applied == UpTo(n)
    }

    /** The greatest recorded version, 0 for none. */
    method Current() returns (max: nat)
      ensures forall v | v in versions :: v <= max
      ensures max in versions || (max == 0 && versions == [])
    {
      max := 0;
      for i := 0 to |versions|
        invariant forall v | v in versions[..i] :: v <= max
        invariant max in versions[..i] || (max == 0 && i == 0)
        invariant forall j | 0 <= j < i :: versions[j] in versions[..i]
      {
        if versions[i] >= max {
          max := versions[i];
        }
      }
      assert versions[..|versions|] == versions;
    }

    method Migrate(supported: nat, fault: nat -> TxFault, ghost at: nat) returns (ok: bool)
      requires At(at)
      modifies this
      ensures ok == OpenResult(at, supported, fault).1
      ensures At(OpenResult(at, supported, fault).0)
    {
      var current := Current();
      CurrentIs(versions, at, current);
      if current > supported {
        return false;
      }
      for v := current to supported
        invariant At(v) && Reach(v, supported, fault) == Reach(at, supported, fault)
      {
        var tx := fault(v + 1);
        if tx == RolledBack {
          return false;
        }
        assert UpTo(v) + [v + 1] == UpTo(v + 1);
        applied := applied + [v + 1];
        versions := versions + [v + 1];
        if tx == AckLost {
          return false;
        }
      }
      ok := true;
    }
  }

  lemma CurrentIs(versions: seq<nat>, at: nat, max: nat)
    requires versions == UpTo(at)
    requires forall v | v in versions :: v <= max
    requires max in versions || (max == 0 && versions == [])
    ensures max == at
  {
    if at > 0 {
      assert versions[at - 1] in versions;
    }
  }

  // ---- Every sequence of openings ----

  datatype Opening = Opening(supported: nat, fault: nat -> TxFault)

  function Openings(at: nat, steps: seq<Opening>): nat
    decreases |steps|
  {
    if steps == [] then at else Openings(OpenResult(at, steps[0].supported, steps[0].fault).0, steps[1..])
  }

  /** One opening never goes back, never skips, stops at what the binary supports, and succeeds only
      there; a database from a newer binary is refused untouched. */
  lemma {:induction false} OpeningIsForward(at: nat, supported: nat, fault: nat -> TxFault)
    ensures var (reached, ok) := OpenResult(at, supported, fault);
      && at <= reached <= (if at > supported then at else supported)
      && (ok ==> reached == supported)
      && (at > supported ==> reached == at && !ok)
      && (at <= supported && (forall v | at < v <= supported :: fault(v) == NoFault) ==> ok)
    decreases if at > supported then 0 else supported - at
  {
    if at < supported && fault(at + 1) == NoFault {
      OpeningIsForward(at + 1, supported, fault);
    }
  }

  /** An opening goes as far as the first migration that fails: one that was rolled back leaves the version
      before it, one whose commit was not acknowledged its own, and both are reported. */
  lemma {:induction false} OpeningStopsAtFailure(at: nat, supported: nat, fault: nat -> TxFault, v: nat)
    requires at < v <= supported && fault(v) != NoFault && forall u | at < u < v :: fault(u) == NoFault
    ensures OpenResult(at, supported, fault) == (if fault(v) == AckLost then v else v - 1, false)
    decreases v - at
  {
    if at + 1 < v {
      OpeningStopsAtFailure(at + 1, supported, fault, v);
    }
  }

  /** However often a database is opened, by whatever binaries and with whatever failures in between, its
      version never goes back and never passes what the newest of them supports, or where it already
      was; an opening without failures by the newest ends exactly there. So with Migrator.At each
      migration up to the version has run exactly once, in order, and no other has. */
  lemma {:induction false} OpeningsAreForward(at: nat, steps: seq<Opening>, newest: nat)
    requires at <= newest && forall o | o in steps :: o.supported <= newest
    ensures at <= Openings(at, steps) <= newest
    ensures Openings(at, steps) == at || exists o | o in steps :: Openings(at, steps) <= o.supported
    ensures (exists o | o in steps :: o.supported == newest && forall v :: o.fault(v) == NoFault) ==>
      Openings(at, steps) == newest
    decreases |steps|
  {
    if steps != [] {
      var (first, rest) := (steps[0], steps[1..]);
      var reached := OpenResult(at, first.supported, first.fault).0;
      OpeningIsForward(at, first.supported, first.fault);
      OpeningsAreForward(reached, rest, newest);
      assert first in steps && forall o | o in rest :: o in steps;
      if o :| o in steps && o.supported == newest && forall v :: o.fault(v) == NoFault {
        assert o == first || o in rest;
      }
    }
  }
}
