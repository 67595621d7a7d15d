/**
 * The entitlement store: the user's entitlement status, the entitlements
 * each product unlocks, the derived all / active / inactive sets, and the
 * change reports sent to the delegate when the status changes. The store's
 * serial dispatch queue is modelled as plain sequential execution.
 */
module Entitlements {
  import opened Wrappers

  datatype Entitlement = Entitlement(id: string)

  datatype EntitlementStatus = Unknown | Inactive | Active(entitlements: set<Entitlement>)

  /** The set of entitlements an `active` status carries, empty otherwise. */
  function ActiveSetOf(s: EntitlementStatus): set<Entitlement> {
    if s.Active? then s.entitlements else {}
  }

  /** Every entitlement that some product unlocks (`Set(map.values.joined())`). */
  function UnionOfValues(m: map<string, set<Entitlement>>): (r: set<Entitlement>)
    ensures forall p :: p in m ==> m[p] <= r
    ensures forall e :: e in r ==> exists p :: p in m && e in m[p]
  {
    set p, e | p in m && e in m[p] :: e
  }

  /** The persistence collaborator, reduced to the two keys this store uses. */
  class Storage {
    var entitlementStatus: Option<EntitlementStatus>
    var entitlementsByProductId: Option<map<string, set<Entitlement>>>

    constructor (status: Option<EntitlementStatus>, byProductId: Option<map<string, set<Entitlement>>>)
      ensures entitlementStatus == status && entitlementsByProductId == byProductId
    {
      entitlementStatus := status;
      entitlementsByProductId := byProductId;
    }
  }

  /**
   * What assigning `status` does to (status, active set), as written: the
   * `didSet` turns an empty `active` into `inactive` and returns before the
   * active set is updated; the nested assignment does not re-run `didSet`.
   */
  function StatusAssigned(s: EntitlementStatus, backingActive: set<Entitlement>): (r: (EntitlementStatus, set<Entitlement>))
    // the status that results is never an empty active status
    ensures r.0 != Active({})
    ensures s != Active({}) ==> r == (s, ActiveSetOf(s))
    // the normalising path leaves the active set where it was
    ensures s == Active({}) ==> r == (Inactive, backingActive)
  {
    if s.Active? && s.entitlements == {} then (Inactive, backingActive)
    else (s, ActiveSetOf(s))
  }

  /** The values the `$status` publisher emits for one assignment: the nested normalising assignment is emitted too. */
  function Emitted(s: EntitlementStatus): (r: seq<EntitlementStatus>)
    ensures |r| >= 1 && r[0] == s
    ensures r[|r| - 1] == StatusAssigned(s, {}).0
  {
    if s == Active({}) then [s, Inactive] else [s]
  }

  /** Status and active set agree: the active set is the status's entitlements. */
  ghost predicate Consistent(status: EntitlementStatus, backingActive: set<Entitlement>) {
    backingActive == ActiveSetOf(status)
  }

  /**
   * The as-written transition can break `Consistent`: a user with an active
   * entitlement who is then given an empty active set reads `inactive` while
   * `active` still holds the old entitlement.
   */
  lemma AsWrittenLeavesStaleActive(e: Entitlement)
    ensures var r := StatusAssigned(Active({e}), {});
      Consistent(r.0, r.1) && r.0 == Active({e})
    ensures var r := StatusAssigned(Active({}), {e});
      r.0 == Inactive && r.1 == {e} && !Consistent(r.0, r.1)
  {
  }

  /** The evidently intended transition: normalise, then derive the active set from the normalised status. */
  function StatusAssignedIntended(s: EntitlementStatus): (r: (EntitlementStatus, set<Entitlement>))
    ensures r.0 != Active({})
    ensures s != Active({}) ==> r.0 == s
    ensures s == Active({}) ==> r.0 == Inactive
  {
    var normalised := if s == Active({}) then Inactive else s;
    (normalised, ActiveSetOf(normalised))
  }

  /** The intended transition always leaves status and active set consistent, and agrees with the written one except on the stale set. */
  lemma IntendedKeepsConsistent(s: EntitlementStatus, backingActive: set<Entitlement>)
    ensures Consistent(StatusAssignedIntended(s).0, StatusAssignedIntended(s).1)
    ensures StatusAssignedIntended(s).0 == StatusAssigned(s, backingActive).0
    ensures s != Active({}) ==> StatusAssignedIntended(s) == StatusAssigned(s, backingActive)
  {
  }

  /** Whatever the active set before, an assignment leaves it equal to the status's entitlements unless the status is `inactive`. */
  lemma StatusAssignedTracksStatus(s: EntitlementStatus, backingActive: set<Entitlement>)
    ensures var r := StatusAssigned(s, backingActive);
      r.0 != Inactive ==> r.1 == ActiveSetOf(r.0)
  {
  }

  /** A reported status change: the delegate's `entitlementStatusDidChange(from:to:)`, also tracked as an event. */
  datatype StatusChange = StatusChange(from: EntitlementStatus, to: EntitlementStatus)

  /** `removeDuplicates()`: drops every value equal to the one just before it. */
  function RemoveDuplicates(s: seq<EntitlementStatus>): (r: seq<EntitlementStatus>)
    ensures |r| <= |s|
    ensures s != [] ==> |r| >= 1 && r[0] == s[0] && r[|r| - 1] == s[|s| - 1]
    ensures forall i :: 0 <= i < |r| - 1 ==> r[i] != r[i + 1]
    ensures forall x :: x in r ==> x in s
  {
    if |s| <= 1 then s
    else
      var init := RemoveDuplicates(s[..|s| - 1]);
      if s[|s| - 1] == s[|s| - 2] then init else init + [s[|s| - 1]]
  }

  /** The number of places where a value differs from the one before it. */
  function Changes(s: seq<EntitlementStatus>): nat {
    if |s| <= 1 then 0 else Changes(s[..|s| - 1]) + (if s[|s| - 1] != s[|s| - 2] then 1 else 0)
  }

  /** `removeDuplicates` keeps the first value and one more per change. */
  lemma {:induction false} RemoveDuplicatesCount(s: seq<EntitlementStatus>)
    requires s != []
    ensures |RemoveDuplicates(s)| == Changes(s) + 1
  {
    if |s| > 1 {
      RemoveDuplicatesCount(s[..|s| - 1]);
    }
  }

  /** Each value paired with the one before it (the `scan` over the stream after `dropFirst()`). */
  function Pairs(d: seq<EntitlementStatus>): (r: seq<StatusChange>)
    ensures |r| == if d == [] then 0 else |d| - 1
    ensures forall i :: 0 <= i < |r| ==> r[i] == StatusChange(d[i], d[i + 1])
  {
    if |d| <= 1 then [] else Pairs(d[..|d| - 1]) + [StatusChange(d[|d| - 2], d[|d| - 1])]
  }

  /**
   * The reports the listener produces for a stream of published values,
   * whose first value is the status at subscription (the `scan` seed).
   */
  function ChangeReports(stream: seq<EntitlementStatus>): seq<StatusChange> {
    Pairs(RemoveDuplicates(stream))
  }

  /**
   * What the listener promises: every report is a real change, reports chain
   * (each starts where the previous ended), the first starts from the status
   * at subscription, and the last ends at the last published value.
   */
  lemma ChangeReportsChain(stream: seq<EntitlementStatus>)
    ensures var r := ChangeReports(stream);
      && |r| == Changes(stream)
      && (forall i :: 0 <= i < |r| ==> r[i].from != r[i].to)
      && (forall i :: 0 <= i < |r| - 1 ==> r[i].to == r[i + 1].from)
      && (forall i :: 0 <= i < |r| ==> r[i].to in stream)
      && (|r| > 0 ==> r[0].from == stream[0] && r[|r| - 1].to == stream[|stream| - 1])
  {
    var d := RemoveDuplicates(stream);
    var r := Pairs(d);
    if stream != [] {
      RemoveDuplicatesCount(stream);
    }
    forall i | 0 <= i < |r|
      ensures r[i].from != r[i].to && r[i].to in stream
    {
      assert r[i] == StatusChange(d[i], d[i + 1]);
      assert d[i + 1] in d;
    }
    forall i | 0 <= i < |r| - 1
      ensures r[i].to == r[i + 1].from
    {
      assert r[i] == StatusChange(d[i], d[i + 1]);
      assert r[i + 1] == StatusChange(d[i + 1], d[i + 2]);
    }
    if |r| > 0 {
      assert r[0] == StatusChange(d[0], d[1]);
      assert r[|r| - 1] == StatusChange(d[|d| - 2], d[|d| - 1]);
    }
  }

  /** A stream that never changes value produces no report. */
  lemma {:induction false} ConstantStreamNoReports(stream: seq<EntitlementStatus>)
    requires forall i :: 0 <= i < |stream| ==> stream[i] == stream[0]
    ensures ChangeReports(stream) == []
  {
    if |stream| > 1 {
      ConstantStreamNoReports(stream[..|stream| - 1]);
      assert |RemoveDuplicates(stream[..|stream| - 1])| <= 1;
    }
  }

  /** A value differing from the last one published always yields a report ending at that value. */
  lemma ChangeReportsOnNewValue(stream: seq<EntitlementStatus>, s: EntitlementStatus)
    requires stream != [] && stream[|stream| - 1] != s
    ensures ChangeReports(stream + [s]) == ChangeReports(stream) + [StatusChange(stream[|stream| - 1], s)]
  {
    var t := stream + [s];
    assert t[..|t| - 1] == stream;
  }

  /** A value equal to the last one published adds no report (`removeDuplicates` swallows it). */
  lemma ChangeReportsOnSameValue(stream: seq<EntitlementStatus>)
    requires stream != []
    ensures ChangeReports(stream + [stream[|stream| - 1]]) == ChangeReports(stream)
  {
    var t := stream + [stream[|stream| - 1]];
    assert t[..|t| - 1] == stream;
  }

  /** One more published value: what it adds to the reports of the values before it. */
  lemma ChangeReportsStep(stream: seq<EntitlementStatus>, i: nat)
    requires 1 <= i < |stream|
    ensures stream[i] != stream[i - 1] ==>
      ChangeReports(stream[..i + 1]) == ChangeReports(stream[..i]) + [StatusChange(stream[i - 1], stream[i])]
    ensures stream[i] == stream[i - 1] ==> ChangeReports(stream[..i + 1]) == ChangeReports(stream[..i])
  {
    var seen := stream[..i];
    assert stream[..i + 1] == seen + [stream[i]];
    if stream[i] != stream[i - 1] {
      ChangeReportsOnNewValue(seen, stream[i]);
    } else {
      ChangeReportsOnSameValue(seen);
    }
  }

  /** The status store. Fields are the SDK's own; `published` records every value the status publisher emitted. */
  class EntitlementsInfo {
    var status: EntitlementStatus
    var entitlementsByProductId: map<string, set<Entitlement>>
    var backingActive: set<Entitlement>
    var backingAll: set<Entitlement>
    const storage: Storage
    ghost var published: seq<EntitlementStatus>

    /** `all` always holds every entitlement some product unlocks. */
    ghost predicate Valid()
      reads this
    {
      backingAll == UnionOfValues(entitlementsByProductId)
    }

    /**
     * `init(storage:delegateAdapter:isTesting:)`. With `isTesting` nothing
     * is restored. Otherwise the stored status is assigned as it is (inside
     * an initializer a class's own observers do not run, so an empty active
     * status is not normalised here), the stored map is assigned through its
     * observer (which saves it back and sets `all`), and the active set is
     * taken from the stored status. Subscribing the listener is
     * `ListenToEntitlementStatus`.
     */
    constructor (storage: Storage, isTesting: bool)
      modifies storage
      ensures this.storage == storage && Valid() && ActiveTracksStatus()
      ensures storage.entitlementStatus == old(storage.entitlementStatus)
      ensures isTesting ==>
        && status == Unknown && backingActive == {} && backingAll == {} && entitlementsByProductId == map[]
        && storage.entitlementsByProductId == old(storage.entitlementsByProductId)
      ensures !isTesting ==>
        && status == old(storage.entitlementStatus).GetOr(Unknown)
        && entitlementsByProductId == old(storage.entitlementsByProductId).GetOr(map[])
        && backingActive == ActiveSetOf(status)
        && backingAll == UnionOfValues(entitlementsByProductId)
        && storage.entitlementsByProductId == Some(entitlementsByProductId)
      ensures published == []
    {
      this.storage := storage;
      status := Unknown;
      entitlementsByProductId := map[];
      backingActive := {};
      backingAll := {};
      published := [];
      new;
      if isTesting {
        return;
      }
      var storedStatus := storage.entitlementStatus.GetOr(Unknown);
      status := storedStatus;
      SetEntitlementsByProductId(storage.entitlementsByProductId.GetOr(map[]));
      if storedStatus.Active? {
        backingActive := storedStatus.entitlements;
      } else {
        backingActive := {};
      }
      backingAll := UnionOfValues(entitlementsByProductId);
    }

    /** `all`: every entitlement, active or not. */
    function All(): (r: set<Entitlement>)
      reads this
      requires Valid()
      ensures forall p :: p in entitlementsByProductId ==> entitlementsByProductId[p] <= r
      ensures forall e :: e in r ==> exists p :: p in entitlementsByProductId && e in entitlementsByProductId[p]
    {
      backingAll
    }

    /**
     * Outside an `inactive` status, the active set is the status's own
     * entitlements. An `inactive` status may carry a stale active set
     * (`AsWrittenLeavesStaleActive`).
     */
    ghost predicate ActiveTracksStatus()
      reads this`status, this`backingActive
    {
      status != Inactive ==> backingActive == ActiveSetOf(status)
    }

    /** `active`: the active entitlements. */
    function ActiveEntitlements(): (r: set<Entitlement>)
      reads this
      requires ActiveTracksStatus()
      // an `active` status's entitlements, none for `unknown`
      ensures status.Active? ==> r == status.entitlements
      ensures status.Unknown? ==> r == {}
    {
      backingActive
    }

    /** `inactive`: the entitlements of `all` that are not active. */
    function InactiveEntitlements(): (r: set<Entitlement>)
      reads this
      ensures r !! backingActive
      ensures r <= backingAll
      ensures forall e :: e in backingAll && e !in backingActive ==> e in r
    {
      backingAll - backingActive
    }

    /** `byProductId`: the entitlements a product unlocks, empty for an unknown product. */
    function ByProductId(productId: string): (r: set<Entitlement>)
      reads this
      requires Valid()
      ensures productId !in entitlementsByProductId ==> r == {}
      ensures productId in entitlementsByProductId ==> r == entitlementsByProductId[productId]
      ensures r <= All()
    {
      if productId in entitlementsByProductId then entitlementsByProductId[productId] else {}
    }

    /** Assigning `status`, with its `didSet`. */
    method SetStatus(s: EntitlementStatus)
      requires Valid()
      modifies this`status, this`backingActive, this`published
      ensures Valid() && ActiveTracksStatus()
      ensures (status, backingActive) == StatusAssigned(s, old(backingActive))
      ensures published == old(published) + Emitted(s)
    {
      published := published + [s];
      status := s;
      if status.Active? && status.entitlements == {} {
        status := Inactive;
        published := published + [Inactive];
        return;
      }
      match status
      case Active(entitlements) =>
        backingActive := entitlements;
      case _ =>
        backingActive := {};
    }

    /** `setUnknownStatus()`. */
    method SetUnknownStatus()
      requires Valid()
      modifies this`status, this`backingActive, this`published
      ensures Valid() && status == Unknown && backingActive == {}
      ensures published == old(published) + [Unknown]
    {
      SetStatus(Unknown);
    }

    /** `setInactiveStatus()`. */
    method SetInactiveStatus()
      requires Valid()
      modifies this`status, this`backingActive, this`published
      ensures Valid() && status == Inactive && backingActive == {}
      ensures published == old(published) + [Inactive]
    {
      SetStatus(Inactive);
    }

    /** `setActiveStatus(with:)`: an empty set reads back as `inactive` and leaves the active set alone. */
    method SetActiveStatus(entitlements: set<Entitlement>)
      requires Valid()
      modifies this`status, this`backingActive, this`published
      ensures Valid() && ActiveTracksStatus()
      ensures entitlements != {} ==> status == Active(entitlements) && backingActive == entitlements
      ensures entitlements == {} ==> status == Inactive && backingActive == old(backingActive)
      ensures published == old(published) + Emitted(Active(entitlements))
    {
      SetStatus(Active(entitlements));
    }

    /** Assigning `entitlementsByProductId`, with its `didSet`: save it, then recompute `all`. */
    method SetEntitlementsByProductId(m: map<string, set<Entitlement>>)
      modifies this`entitlementsByProductId, this`backingAll, storage`entitlementsByProductId
      ensures Valid()
      ensures entitlementsByProductId == m && storage.entitlementsByProductId == Some(m)
      ensures backingAll == UnionOfValues(m)
    {
      entitlementsByProductId := m;
      storage.entitlementsByProductId := Some(entitlementsByProductId);
      backingAll := UnionOfValues(entitlementsByProductId);
    }

    /**
     * `listenToEntitlementStatus`, run over the values the publisher emits
     * from subscription on (`current` first, then `later`): duplicates are
     * removed, the first value is dropped, each new value is paired with the
     * previous one, saved, and reported.
     */
    method ListenToEntitlementStatus(current: EntitlementStatus, later: seq<EntitlementStatus>)
      returns (reports: seq<StatusChange>)
      modifies storage`entitlementStatus
      ensures reports == ChangeReports([current] + later)
      ensures reports == [] ==> storage.entitlementStatus == old(storage.entitlementStatus)
      ensures reports != [] ==> storage.entitlementStatus == Some(reports[|reports| - 1].to)
    {
      var stream := [current] + later;
      var last := current;       // the value `removeDuplicates` compares against
      var pair := StatusChange(current, current);   // the `scan` accumulator
      reports := [];
      var i := 1;
      assert stream[..1] == [current];
      while i < |stream|
        invariant 1 <= i <= |stream|
        invariant last == stream[i - 1] && pair.to == last
        invariant reports == ChangeReports(stream[..i])
        invariant reports == [] ==> storage.entitlementStatus == old(storage.entitlementStatus)
        invariant reports != [] ==> reports[|reports| - 1] == pair && storage.entitlementStatus == Some(last)
      {
        var value := stream[i];
        ChangeReportsStep(stream, i);
        if value != last {
          pair := StatusChange(pair.to, value);
          storage.entitlementStatus := Some(pair.to);
          reports := reports + [pair];
        }
        last := value;
        i := i + 1;
      }
      assert stream[..i] == stream;
    }
  }
}
