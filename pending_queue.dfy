/** The pending-offer queue of app/queue.js: a module-level array of
    offers waiting to be processed, with a debounced write of the whole array
    to disk after every change. */
module PendingQueue {
  import opened Wrappers

  type SteamId = string
  type OfferId = string

  datatype Status = Received | Queued

  /** `details`: empty for received offers; name, amount and intent for a
      requested one. */
  datatype Details = NoDetails | Request(name: string, amount: int, intent: int)

  /** One queued trade. Requested offers have no offer id yet. */
  datatype Entry = Entry(partner: SteamId, id: Option<OfferId>, status: Status, details: Details, time: int)

  /** The queue file at start-up: absent, or present with the result of
      `parseJSON` (`None` where it gives `null`). */
  datatype QueueFile = Missing | Present(parsed: Option<seq<Entry>>)

  /** What `isInQueue` returns: a 1-based position, or `false`. */
  datatype Position = NotQueued | At(pos: nat)

  predicate HasId(e: Entry, id: OfferId)
  {
    e.id == Some(id)
  }

  /** What `offerInQueue` compares the entries' ids with: an offer id, or
      the `offer.id` accessor itself, which loose equality makes equal to no
      stored id (a string, or `undefined` for a requested offer). */
  datatype LookupKey = IdKey(id: OfferId) | Accessor

  predicate KeyMatches(e: Entry, key: LookupKey)
  {
    key.IdKey? && HasId(e, key.id)
  }

  /** The accessor matches no entry. */
  lemma AccessorMatchesNothing(s: seq<Entry>)
    ensures forall i :: 0 <= i < |s| ==> !KeyMatches(s[i], Accessor)
  {
  }

  /** The queue after `enqueueReceivedOffer` looked up `key`: unchanged
      when some entry matches, otherwise `e` appended. */
  function AfterReceived(s: seq<Entry>, key: LookupKey, e: Entry): seq<Entry>
  {
    if exists i :: 0 <= i < |s| && KeyMatches(s[i], key) then s else s + [e]
  }

  /** No offer id is carried by two entries. */
  predicate UniqueIds(s: seq<Entry>)
  {
    forall i, j :: 0 <= i < j < |s| && s[i].id.Some? ==> s[i].id != s[j].id
  }

  /** Looking up the offer's own id, a received offer is queued once:
      distinct ids stay distinct. */
  lemma ReceivedKeepsIdsUnique(s: seq<Entry>, partner: SteamId, id: OfferId, now: int)
    requires UniqueIds(s)
    ensures UniqueIds(AfterReceived(s, IdKey(id), Entry(partner, Some(id), Received, NoDetails, now)))
  {
    var e := Entry(partner, Some(id), Received, NoDetails, now);
    var r := AfterReceived(s, IdKey(id), e);
    if r != s {
      forall i, j | 0 <= i < j < |r| && r[i].id.Some?
        ensures r[i].id != r[j].id
      {
        if j == |s| {
          assert !KeyMatches(s[i], IdKey(id));
        }
      }
    }
  }

  /** Looking up the accessor, as `enqueueReceivedOffer` does, an offer
      already queued is queued a second time, so two entries carry its id. */
  lemma AccessorQueuesDuplicate(s: seq<Entry>, partner: SteamId, id: OfferId, now: int, k: nat)
    requires k < |s| && HasId(s[k], id)
    ensures var r := AfterReceived(s, Accessor, Entry(partner, Some(id), Received, NoDetails, now));
            |r| == |s| + 1 && HasId(r[k], id) && HasId(r[|s|], id) && !UniqueIds(r)
  {
    AccessorMatchesNothing(s);
    var r := AfterReceived(s, Accessor, Entry(partner, Some(id), Received, NoDetails, now));
    assert r[k] == s[k] && r[|s|].id == s[k].id;
  }

  /** The entries that survive `removeID(id)`, in their original order. */
  function WithoutId(s: seq<Entry>, id: OfferId): (r: seq<Entry>)
    ensures |r| <= |s|
  {
    if s == [] then []
    else if HasId(s[0], id) then WithoutId(s[1..], id)
    else [s[0]] + WithoutId(s[1..], id)
  }

  /** `removeID` removes exactly the matching entries: what is left carries
      other ids only, and every entry with another id is left. */
  lemma {:induction false} WithoutIdMembers(s: seq<Entry>, id: OfferId)
    ensures forall e :: e in WithoutId(s, id) ==> e in s && !HasId(e, id)
    ensures forall e :: e in s && !HasId(e, id) ==> e in WithoutId(s, id)
  {
    if s != [] {
      WithoutIdMembers(s[1..], id);
      assert forall e :: e in s ==> e == s[0] || e in s[1..];
    }
  }

  /** Removing by id twice removes nothing more the second time. */
  lemma {:induction false} WithoutIdIdempotent(s: seq<Entry>, id: OfferId)
    ensures WithoutId(WithoutId(s, id), id) == WithoutId(s, id)
  {
    if s != [] {
      WithoutIdIdempotent(s[1..], id);
    }
  }

  /** Nothing matched exactly when nothing was removed. */
  lemma {:induction false} WithoutIdUnchanged(s: seq<Entry>, id: OfferId)
    ensures WithoutId(s, id) == s <==> forall i :: 0 <= i < |s| ==> !HasId(s[i], id)
  {
    if s != [] {
      WithoutIdUnchanged(s[1..], id);
      if HasId(s[0], id) {
        assert |WithoutId(s, id)| < |s|;
      } else {
        assert forall i :: 1 <= i < |s| ==> s[i] == s[1..][i - 1];
      }
    }
  }

  /** `WithoutId` of a list with one more entry at the front. */
  lemma WithoutIdCons(e: Entry, s: seq<Entry>, id: OfferId)
    ensures WithoutId([e] + s, id) == (if HasId(e, id) then [] else [e]) + WithoutId(s, id)
  {
    assert ([e] + s)[1..] == s;
  }

  /** One backward step of `removeID`: entry `i` is spliced out exactly when
      it matches, and the part from `i` on is then filtered. */
  lemma RemoveStep(original: seq<Entry>, i: nat, id: OfferId)
    requires i < |original|
    ensures var before := original[..i + 1] + WithoutId(original[i + 1..], id);
            before[i] == original[i] &&
            (HasId(original[i], id) ==> before[..i] + before[i + 1..] == original[..i] + WithoutId(original[i..], id)) &&
            (!HasId(original[i], id) ==> before == original[..i] + WithoutId(original[i..], id))
  {
    assert original[i..] == [original[i]] + original[i + 1..];
    WithoutIdCons(original[i], original[i + 1..], id);
    assert original[..i + 1] == original[..i] + [original[i]];
  }

  class Queue {
    /** `QUEUE`. */
    var entries: seq<Entry>
    /** Whether a write is scheduled (`WAIT` is armed). */
    var savePending: bool
    /** The contents of the queue file as last written. */
    var stored: Option<seq<Entry>>

    /** The module's initial state: an empty queue, no timer, nothing
        written yet. */
    constructor ()
      ensures entries == [] && !savePending && stored == None
    {
      entries := [];
      savePending := false;
      stored := None;
    }

    /** `register`: load the queue file when it exists and parses to
        something other than `null`. */
    method Register(file: QueueFile)
      modifies this
      ensures entries == (if file.Present? && file.parsed.Some? then file.parsed.value else old(entries))
      ensures savePending == old(savePending) && stored == old(stored)
    {
      if file.Present? {
        var data := file.parsed;
        if data.Some? {
          entries := data.value;
        }
      }
    }

    /** `getLength`. */
    function Length(): (n: nat)
      reads this
      ensures n == 0 <==> GetNext().None?
      ensures n > 0 ==> GetNext() == Some(entries[0])
    {
      |entries|
    }

    /** `getNext`: the first entry without removing it, or `null`. */
    function GetNext(): (r: Option<Entry>)
      reads this
      ensures r.None? <==> entries == []
      ensures r.Some? ==> r.value == entries[0]
    {
      if |entries| == 0 then None else Some(entries[0])
    }

    /** `saveQueue`: cancel any scheduled write and schedule a new one. */
    method SaveQueue()
      modifies this`savePending
      ensures savePending
    {
      savePending := true;
    }

    /** The scheduled write firing: the queue as it is now is written in
        full; a failed write only logs, leaving the file as it was. */
    method Flush(writeSucceeds: bool)
      modifies this`savePending, this`stored
      ensures !savePending
      ensures stored == if old(savePending) && writeSucceeds then Some(entries) else old(stored)
    {
      if savePending {
        savePending := false;
        if writeSucceeds {
          stored := Some(entries);
        }
      }
    }

    /** `removeFirst`: drop the first entry (nothing on an empty queue) and
        schedule a write. */
    method RemoveFirst()
      modifies this
      ensures entries == if old(entries) == [] then [] else old(entries)[1..]
      ensures savePending && stored == old(stored)
    {
      if |entries| > 0 {
        entries := entries[1..];
      }
      SaveQueue();
    }

    /** `removeID`: walk the queue backwards, splicing out every entry with
        this offer id; schedule a write only if something was removed. */
    method RemoveID(id: OfferId)
      modifies this
      ensures entries == WithoutId(old(entries), id)
      ensures savePending == (old(savePending) || exists i :: 0 <= i < |old(entries)| && HasId(old(entries)[i], id))
      ensures stored == old(stored)
    {
      ghost var original := entries;
      var changed := false;
      var i := |entries|;
      while i > 0
        invariant 0 <= i <= |original|
        invariant entries == original[..i] + WithoutId(original[i..], id)
        invariant changed == exists j :: i <= j < |original| && HasId(original[j], id)
        invariant savePending == old(savePending) && stored == old(stored)
      {
        i := i - 1;
        RemoveStep(original, i, id);
        if HasId(entries[i], id) {
          entries := entries[..i] + entries[i + 1..];
          changed := true;
        }
      }
      assert original[0..] == original;
      if changed {
        SaveQueue();
      }
    }

    /** `offerInQueue`: whether some entry's id equals the key. */
    method OfferInQueue(key: LookupKey) returns (found: bool)
      ensures found <==> exists i :: 0 <= i < |entries| && KeyMatches(entries[i], key)
    {
      for i := 0 to |entries|
        invariant forall j :: 0 <= j < i ==> !KeyMatches(entries[j], key)
      {
        if key.IdKey? && entries[i].id == Some(key.id) {
          return true;
        }
      }
      return false;
    }

    /** `isInQueue`: the 1-based position of the first `Queued` entry of this
        partner; received offers never count. */
    method IsInQueue(partner: SteamId) returns (p: Position)
      ensures p.At? ==> 1 <= p.pos <= |entries| && entries[p.pos - 1].status == Queued
                        && entries[p.pos - 1].partner == partner
      ensures p.At? ==> forall j :: 0 <= j < p.pos - 1 ==> !(entries[j].status == Queued && entries[j].partner == partner)
      ensures p.NotQueued? ==> forall j :: 0 <= j < |entries| ==> !(entries[j].status == Queued && entries[j].partner == partner)
    {
      for i := 0 to |entries|
        invariant forall j :: 0 <= j < i ==> !(entries[j].status == Queued && entries[j].partner == partner)
      {
        var offer := entries[i];
        if offer.status == Queued && offer.partner == partner {
          return At(i + 1);
        }
      }
      return NotQueued;
    }

    /** `enqueueReceivedOffer` as evidently intended: the duplicate check
        looks up the offer's id, so an offer already queued is not queued
        again, and a write is scheduled only when the entry is added. */
    method EnqueueReceivedOffer(partner: SteamId, id: OfferId, now: int)
      modifies this
      ensures entries == AfterReceived(old(entries), IdKey(id), Entry(partner, Some(id), Received, NoDetails, now))
      ensures savePending == (old(savePending) || entries != old(entries))
      ensures stored == old(stored)
    {
      var present := OfferInQueue(IdKey(id));
      if present {
        return;
      }
      var trade := Entry(partner, Some(id), Received, NoDetails, now);
      entries := entries + [trade];
      SaveQueue();
    }

    /** `enqueueReceivedOffer` as written: the duplicate check is handed the
        `offer.id` accessor instead of its result, finds nothing, and the
        offer is always appended and a write scheduled. */
    method EnqueueReceivedOfferAsWritten(partner: SteamId, id: OfferId, now: int)
      modifies this
      ensures entries == AfterReceived(old(entries), Accessor, Entry(partner, Some(id), Received, NoDetails, now))
      ensures entries == old(entries) + [Entry(partner, Some(id), Received, NoDetails, now)]
      ensures savePending && stored == old(stored)
    {
      var present := OfferInQueue(Accessor);
      if present {
        return;
      }
      var trade := Entry(partner, Some(id), Received, NoDetails, now);
      entries := entries + [trade];
      SaveQueue();
    }

    /** `enqueueRequestedOffer`: always appends one `Queued` entry, even for
        a partner who already has one. */
    method EnqueueRequestedOffer(partner: SteamId, name: string, amount: int, intent: int, now: int)
      modifies this
      ensures entries == old(entries) + [Entry(partner, None, Queued, Request(name, amount, intent), now)]
      ensures savePending && stored == old(stored)
    {
      var trade := Entry(partner, None, Queued, Request(name, amount, intent), now);
      entries := entries + [trade];
      SaveQueue();
    }
  }
}
