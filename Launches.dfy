/**
 * The launch records decoded from the launches query. Every `Launch` value is
 * given a fresh identity when it is constructed; the identity is not part of
 * the decoded data, and it takes part in equality. The identity generator is
 * modelled as a counter: the caller passes the first unused number.
 */
module Launches {
  import opened Wrappers

  /** The mission patch; its small image URL may be absent. */
  datatype LaunchPatch = LaunchPatch(small: Option<string>)

  /** Links of a launch: both the patch and the Wikipedia article may be absent. */
  datatype LaunchLinks = LaunchLinks(patch: Option<LaunchPatch>, wikipedia: Option<string>)

  /** The decoded fields of one launch, everything but its identity. */
  datatype LaunchRecord = LaunchRecord(
    links: LaunchLinks,
    name: string,
    rocket: string,
    success: Option<bool>,   // tri-state: succeeded, failed, or not reported
    dateUtc: string,
    dateUnix: real)

  /** One launch as the app holds it: the decoded fields plus the identity drawn at construction. */
  datatype Launch = Launch(
    id: nat,
    links: LaunchLinks,
    name: string,
    rocket: string,
    success: Option<bool>,
    dateUtc: string,
    dateUnix: real)

  /** One page of the launches query: its launches in the order the server sent them. */
  datatype LaunchDocs = LaunchDocs(docs: seq<Launch>)

  /** The decoded fields of a launch, forgetting its identity. */
  function Fields(l: Launch): LaunchRecord
  {
    LaunchRecord(l.links, l.name, l.rocket, l.success, l.dateUtc, l.dateUnix)
  }

  /** Constructing a launch from its decoded fields with identity `id`. */
  function Construct(rec: LaunchRecord, id: nat): (l: Launch)
    ensures Fields(l) == rec && l.id == id
  {
    Launch(id, rec.links, rec.name, rec.rocket, rec.success, rec.dateUtc, rec.dateUnix)
  }

  /**
   * Constructing a decoded array of records in order, each drawing the next
   * identity from the counter, which starts at `firstId`.
   */
  function Stamp(records: seq<LaunchRecord>, firstId: nat): (launches: seq<Launch>)
    ensures |launches| == |records|
    ensures forall i :: 0 <= i < |records| ==>
      Fields(launches[i]) == records[i] && launches[i].id == firstId + i
  {
    if records == [] then []
    else [Construct(records[0], firstId)] + Stamp(records[1..], firstId + 1)
  }

  /** Two constructions from the same record are unequal values, though their fields agree. */
  lemma SameRecordDistinctLaunches(rec: LaunchRecord, id1: nat, id2: nat)
    requires id1 != id2
    ensures Construct(rec, id1) != Construct(rec, id2)
    ensures Fields(Construct(rec, id1)) == Fields(Construct(rec, id2))
  {
  }

  /**
   * Decoding the same page twice, with the counter advanced in between, gives
   * two arrays that share no launch: no value of one equals a value of the other.
   */
  lemma RedecodedPageDisjoint(records: seq<LaunchRecord>, firstId: nat, laterId: nat)
    requires firstId + |records| <= laterId
    ensures forall l :: l in Stamp(records, firstId) ==> l !in Stamp(records, laterId)
  {
    var a, b := Stamp(records, firstId), Stamp(records, laterId);
    assert forall l :: l in a ==> l.id < laterId by {
      forall l | l in a
        ensures l.id < laterId
      {
        var i :| 0 <= i < |a| && a[i] == l;
      }
    }
    assert forall l :: l in b ==> laterId <= l.id;
  }

  /**
   * Appending a second decoding of the same page to the first, with the
   * counter advanced in between: every launch of the page appears twice, at
   * positions `i` and `i + |records|`, with equal fields but as unequal values.
   */
  lemma RedecodedPageAppended(records: seq<LaunchRecord>, firstId: nat, laterId: nat)
    requires firstId + |records| <= laterId
    ensures var both := Stamp(records, firstId) + Stamp(records, laterId);
      && |both| == 2 * |records|
      && forall i :: 0 <= i < |records| ==>
           Fields(both[i]) == Fields(both[i + |records|]) && both[i] != both[i + |records|]
  {
    var a, b := Stamp(records, firstId), Stamp(records, laterId);
    forall i | 0 <= i < |records|
      ensures Fields((a + b)[i]) == Fields((a + b)[i + |records|])
      ensures (a + b)[i] != (a + b)[i + |records|]
    {
      assert (a + b)[i] == a[i] && (a + b)[i + |records|] == b[i];
      assert a[i].id == firstId + i && b[i].id == laterId + i;
    }
  }

  /** Within one decoded page, no two positions hold equal launches. */
  lemma StampedLaunchesDistinct(records: seq<LaunchRecord>, firstId: nat)
    ensures forall i, j :: 0 <= i < j < |records| ==> Stamp(records, firstId)[i] != Stamp(records, firstId)[j]
  {
  }

  /** The small patch image URL, present only when both the patch and its small URL are. */
  function PatchImageUrl(l: Launch): (url: Option<string>)
    ensures url.Some? <==> l.links.patch.Some? && l.links.patch.value.small.Some?
    ensures url.Some? ==> url.value == l.links.patch.value.small.value
  {
    match l.links.patch
    case None => None
    case Some(patch) => patch.small
  }
}
