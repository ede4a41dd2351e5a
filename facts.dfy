/**
 * The fact record and the pure rules the feed applies to it: the derived
 * "disputed" flag, the vote update sent to the store, and the two list
 * updaters handed to `setFacts` (prepend a new fact, patch an entry by id).
 */
module Facts {

  /** One row of the `facts` table as the client holds it. The store assigns `id`. */
  datatype Fact = Fact(
    id: int,
    text: string,
    source: string,
    category: string,
    vInterest: int,
    vMindblow: int,
    vFalse: int)

  /** The three vote buttons, on the columns `v_interest`, `v_mindblow` and `v_false`. */
  datatype VoteField = Interest | Mindblow | False

  /** `fact[value]`: the counter a vote field reads. */
  function Votes(f: Fact, field: VoteField): (v: int)
    ensures v == f.vInterest || v == f.vMindblow || v == f.vFalse
  {
    match field
    case Interest => f.vInterest
    case Mindblow => f.vMindblow
    case False => f.vFalse
  }

  /** A fact is disputed when its false votes outnumber its interest and mind-blow votes together. */
  predicate IsDisputed(f: Fact)
    ensures f.vInterest + f.vMindblow == f.vFalse ==> !IsDisputed(f)
    ensures IsDisputed(f) && f.vInterest >= 0 && f.vMindblow >= 0 ==> f.vFalse >= 1
  {
    f.vInterest + f.vMindblow < f.vFalse
  }

  /** The body of a vote's update request: a single column and the value it is set to. */
  datatype VoteUpdate = VoteUpdate(column: VoteField, value: int)

  /** `{ [value]: fact[value] + 1 }`: the update a vote sends, read from the fact as displayed. */
  function VoteRequest(f: Fact, field: VoteField): (u: VoteUpdate)
    ensures u.column == field
    ensures u.value > Votes(f, field)
  {
    VoteUpdate(field, Votes(f, field) + 1)
  }

  /** What the store does with an update: it writes the one named column of the row and keeps every other column. */
  function ApplyUpdate(row: Fact, u: VoteUpdate): (r: Fact)
    ensures Votes(r, u.column) == u.value
    ensures forall other: VoteField :: other != u.column ==> Votes(r, other) == Votes(row, other)
    ensures r.id == row.id && r.text == row.text && r.source == row.source && r.category == row.category
  {
    match u.column
    case Interest => row.(vInterest := u.value)
    case Mindblow => row.(vMindblow := u.value)
    case False => row.(vFalse := u.value)
  }

  /** Voting on an unchanged row adds exactly one to the chosen counter and changes nothing else. */
  lemma VoteIncrementsOnlyChosenCounter(f: Fact, field: VoteField)
    ensures Votes(ApplyUpdate(f, VoteRequest(f, field)), field) == Votes(f, field) + 1
    ensures forall other: VoteField :: other != field ==>
      Votes(ApplyUpdate(f, VoteRequest(f, field)), other) == Votes(f, other)
    ensures ApplyUpdate(f, VoteRequest(f, field)).id == f.id
  {
  }

  /**
   * The update carries an absolute value, not an increment: two votes issued
   * from the same displayed fact write the same value, so the second write
   * leaves the counter one above the original, not two (last write wins).
   */
  lemma ConcurrentVotesLoseIncrement(f: Fact, field: VoteField)
    ensures var once := ApplyUpdate(f, VoteRequest(f, field));
            ApplyUpdate(once, VoteRequest(f, field)) == once
    ensures Votes(ApplyUpdate(ApplyUpdate(f, VoteRequest(f, field)), VoteRequest(f, field)), field)
            == Votes(f, field) + 1
  {
  }

  /** An interest or mind-blow vote never makes a fact disputed. */
  lemma SupportingVoteNeverDisputes(f: Fact, field: VoteField)
    requires field != False
    ensures IsDisputed(ApplyUpdate(f, VoteRequest(f, field))) ==> IsDisputed(f)
  {
  }

  /**
   * A false vote never clears the flag, and it sets the flag on an undisputed
   * fact exactly when the false votes were tied with the other two together.
   */
  lemma FalseVoteDisputesExactlyAtTie(f: Fact)
    ensures IsDisputed(f) ==> IsDisputed(ApplyUpdate(f, VoteRequest(f, False)))
    ensures !IsDisputed(f) ==>
      (IsDisputed(ApplyUpdate(f, VoteRequest(f, False))) <==> f.vInterest + f.vMindblow == f.vFalse)
  {
  }

  /** `[newFact, ...facts]`: the updater applied after a successful insert. */
  function Prepend(facts: seq<Fact>, newFact: Fact): (r: seq<Fact>)
    ensures |r| == |facts| + 1
    ensures r[0] == newFact
    ensures forall i :: 0 <= i < |facts| ==> r[i + 1] == facts[i]
  {
    [newFact] + facts
  }

  /** `facts.map(f => f.id === id ? updated : f)`: the updater applied after a successful vote. */
  function PatchById(facts: seq<Fact>, id: int, updated: Fact): (r: seq<Fact>)
    ensures |r| == |facts|
    ensures forall i :: 0 <= i < |facts| ==>
      r[i] == (if facts[i].id == id then updated else facts[i])
    ensures (forall i :: 0 <= i < |facts| ==> facts[i].id != id) ==> r == facts
  {
    if facts == [] then []
    else [if facts[0].id == id then updated else facts[0]] + PatchById(facts[1..], id, updated)
  }

  /** The ids of a list, in order. */
  function Ids(facts: seq<Fact>): (ids: seq<int>)
    ensures |ids| == |facts|
    ensures forall i :: 0 <= i < |facts| ==> ids[i] == facts[i].id
  {
    if facts == [] then [] else [facts[0].id] + Ids(facts[1..])
  }

  /** Patching twice with the same record is the same as patching once. */
  lemma PatchIdempotent(facts: seq<Fact>, id: int, updated: Fact)
    ensures PatchById(PatchById(facts, id, updated), id, updated) == PatchById(facts, id, updated)
  {
  }

  /**
   * When the store returns the row under the voted id (the normal case), the
   * list keeps its ids in the same order, and every entry keeps its dispute
   * flag except those carrying the voted id.
   */
  lemma PatchKeepsIdsAndOtherFlags(facts: seq<Fact>, id: int, updated: Fact)
    requires updated.id == id
    ensures Ids(PatchById(facts, id, updated)) == Ids(facts)
    ensures forall i :: 0 <= i < |facts| && facts[i].id != id ==>
      IsDisputed(PatchById(facts, id, updated)[i]) == IsDisputed(facts[i])
  {
  }

  /** A patch for an id other than the new fact's reaches past the prepended entry unchanged. */
  lemma PatchAfterPrepend(facts: seq<Fact>, newFact: Fact, id: int, updated: Fact)
    requires newFact.id != id
    ensures PatchById(Prepend(facts, newFact), id, updated) == Prepend(PatchById(facts, id, updated), newFact)
  {
  }
}
