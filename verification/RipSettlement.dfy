/**
 How a rip settles its charge: the variables that the rip's function and the closure after it share
 (bot/telegram_bot.go, bot/admin_tasks.go), what finalizeHeavyQuota makes of them, and when that meets
 the rule stated above it (bot/quota.go). Cancellation, the outcome of a release and what reached the user
 come from outside.
 */
module RipSettlement {
  import opened QuotaLedger

  datatype Kind = AlbumRip | PlaylistRip | ArtistRip(releases: nat, perRelease: bool)

  /** How the rip's function ended: runDownload can return before it, and recovers from its panics. */
  datatype FnEnd = NotRun | Returned(failed: bool) | Panicked

  /** What the request's context and the rip's state say when the closure runs. */
  datatype Facts = Facts(ctxCancelled: bool, ownerCancelled: bool, parts: nat, flushedAny: bool)

  /** The closure's variables: a captured context and rip state, the function's error, the releases counted. */
  datatype Shared = Shared(captured: bool, fnErr: bool, releasesOK: nat)

  const FRESH := Shared(false, false, 0)

  /** A rip, seen from outside; arrived tells whether anything reached the user. */
  datatype Rip = Rip(kind: Kind, end: FnEnd, releasesOK: nat, facts: Facts, arrived: bool)

  /** A rip that never ran counted and delivered nothing, and an artist's function returns an error only when it was cancelled. */
  predicate WellFormed(r: Rip) {
    && (r.end.NotRun? ==> r.releasesOK == 0 && !r.arrived)
    && (r.kind.ArtistRip? && r.end == Returned(true) ==> r.facts.ctxCancelled)
  }

  function SharedOf(r: Rip): Shared {
    Shared(!r.end.NotRun?, r.end == Returned(true), r.releasesOK)
  }

  /** An artist rip goes by the releases it counted, any other by its error variable, which starts out nil. */
  function Signal(kind: Kind, v: Shared): bool {
    if kind.ArtistRip? then v.releasesOK > 0 else !v.fnErr
  }

  /** A rip state that was not captured is nil, and reads as nothing delivered and nobody cancelling. */
  function OutcomeOf(kind: Kind, v: Shared, f: Facts): RipOutcome {
    RipOutcome(v.captured && f.ctxCancelled, v.captured && f.ownerCancelled, if v.captured then f.parts else 0,
               v.captured && f.flushedAny, Signal(kind, v))
  }

  function Total(kind: Kind): nat {
    if kind.ArtistRip? then kind.releases else 0
  }

  function PerRelease(kind: Kind): bool {
    kind.ArtistRip? && kind.perRelease
  }

  function Settled(kind: Kind, v: Shared, f: Facts): State {
    Settlement(OutcomeOf(kind, v, f), Total(kind), PerRelease(kind))
  }

  // ---- the rule -----------------------------------------------------------

  /** More than half of the releases of a per-release artist rip, or one part of any other. */
  predicate PastThreshold(r: Rip) {
    if PerRelease(r.kind) then 2 * r.facts.parts > Total(r.kind) > 0 else r.facts.flushedAny
  }

  /** A slot is consumed by a rip that ran to completion and delivered something, or that its owner cancelled late; else returned. */
  function Rule(r: Rip): State {
    if r.end == Returned(false) && !r.facts.ctxCancelled && r.arrived then Committed
    else if !r.end.NotRun? && r.facts.ctxCancelled && r.facts.ownerCancelled && PastThreshold(r) then Committed
    else Refunded
  }

  /** Every case of the code: a refund exactly when there is no signal, or a cancellation that was not the owner's or came early. */
  lemma RefundedIff(r: Rip)
    requires r.end.NotRun? ==> r.releasesOK == 0
    ensures Settled(r.kind, SharedOf(r), r.facts) == Refunded <==>
            if r.end.NotRun? then r.kind.ArtistRip?
            else if r.facts.ctxCancelled then !(r.facts.ownerCancelled && PastThreshold(r))
            else if r.kind.ArtistRip? then r.releasesOK == 0
            else r.end == Returned(true)
  {
  }

  const CALM := Facts(false, false, 0, false)
  const STOPPED := Facts(true, true, 0, false)

  /** An album stopped by its owner before its function ran, and one whose status board could not be made, are consumed. */
  lemma NeverRunAlbumIsConsumed()
    ensures forall f :: f in {STOPPED, CALM} ==>
              var r := Rip(AlbumRip, NotRun, 0, f, false);
              WellFormed(r) && Settled(r.kind, SharedOf(r), f) == Committed && Rule(r) == Refunded
  {
  }

  /** So is an album of which no track was ripped, because its function still returns nil, and one whose function panicked. */
  lemma EmptyAlbumIsConsumed()
    ensures forall end :: end in {Returned(false), Panicked} ==>
              var r := Rip(AlbumRip, end, 0, CALM, false);
              WellFormed(r) && Settled(r.kind, SharedOf(r), CALM) == Committed && Rule(r) == Refunded
  {
  }

  /** An artist rip is returned although tracks of its failed releases arrived. */
  lemma PartialArtistIsReturned()
    ensures var r := Rip(ArtistRip(2, false), Returned(false), 0, CALM, true);
            WellFormed(r) && Settled(r.kind, SharedOf(r), CALM) == Refunded && Rule(r) == Committed
  {
  }

  // ---- the course of a rip ------------------------------------------------

  datatype Attempt = Ripped | Failed | Panics

  /** One release of an artist, with what happens when its turn comes. */
  datatype Release = Release(id: string, cancelledBefore: bool, attempt: Attempt)

  /** How far the loop over the releases gets. */
  function StopsAt(rs: seq<Release>): nat {
    if rs == [] || rs[0].cancelledBefore || (rs[0].id != "" && rs[0].attempt == Panics) then 0 else 1 + StopsAt(rs[1..])
  }

  function RippedIn(rs: seq<Release>): nat {
    if rs == [] then 0 else (if rs[0].id != "" && rs[0].attempt == Ripped then 1 else 0) + RippedIn(rs[1..])
  }

  function ArtistEnd(rs: seq<Release>): FnEnd {
    if StopsAt(rs) >= |rs| then Returned(false)
    else if rs[StopsAt(rs)].cancelledBefore then Returned(true)
    else Panicked
  }

  lemma {:induction false} StopsWithin(rs: seq<Release>)
    ensures StopsAt(rs) <= |rs|
  {
    if rs != [] {
      StopsWithin(rs[1..]);
    }
  }

  lemma {:induction false} RippedSnoc(rs: seq<Release>, i: nat)
    requires i < |rs|
    ensures RippedIn(rs[..i + 1]) == RippedIn(rs[..i]) + if rs[i].id != "" && rs[i].attempt == Ripped then 1 else 0
    decreases i
  {
    if i == 0 {
      assert rs[..1] == [rs[0]] && rs[..1][1..] == [];
    } else {
      RippedSnoc(rs[1..], i - 1);
      assert rs[..i + 1][1..] == rs[1..][..i] && rs[..i][1..] == rs[1..][..i - 1];
    }
  }

  /** A release that does not end the loop leaves the stop further on. */
  lemma {:induction false} StopsFrom(rs: seq<Release>, i: nat)
    requires i <= |rs| && forall k :: 0 <= k < i ==> !rs[k].cancelledBefore && (rs[k].id == "" || rs[k].attempt != Panics)
    ensures StopsAt(rs) == i + StopsAt(rs[i..])
    decreases i
  {
    if i > 0 {
      StopsFrom(rs[1..], i - 1);
      assert rs[1..][i - 1..] == rs[i..];
    } else {
      assert rs[0..] == rs;
    }
  }

  /** What runDownload meets before it calls the function. */
  datatype Entry = Entry(ctxCancelled: bool, ffmpegMissing: bool, boardFails: bool)

  predicate GetsIn(e: Entry) {
    !e.ctxCancelled && !e.ffmpegMissing && !e.boardFails
  }

  function EndOf(kind: Kind, e: Entry, attempt: Attempt, rs: seq<Release>): FnEnd {
    if !GetsIn(e) then NotRun
    else if kind.ArtistRip? then ArtistEnd(rs)
    else if attempt == Panics then Panicked
    else Returned(attempt == Failed)
  }

  /** The rip that these events make. */
  function RipOf(kind: Kind, e: Entry, attempt: Attempt, rs: seq<Release>, f: Facts, arrived: bool): Rip {
    StopsWithin(rs);
    Rip(kind, EndOf(kind, e, attempt, rs), if GetsIn(e) && kind.ArtistRip? then RippedIn(rs[..StopsAt(rs)]) else 0, f, arrived)
  }

  /** Nothing arrives from a rip that does not get in, and a context that was cancelled stays so. */
  predicate Coherent(kind: Kind, e: Entry, rs: seq<Release>, f: Facts, arrived: bool) {
    && (arrived ==> GetsIn(e))
    && (GetsIn(e) && kind.ArtistRip? && ArtistEnd(rs) == Returned(true) ==> f.ctxCancelled)
  }

  lemma CoherentIsWellFormed(kind: Kind, e: Entry, attempt: Attempt, rs: seq<Release>, f: Facts, arrived: bool)
    requires Coherent(kind, e, rs, f, arrived)
    ensures WellFormed(RipOf(kind, e, attempt, rs, f, arrived))
  {
  }

  /**
   The code meets the rule exactly for: an artist rip, when the function did not run; any rip that was
   cancelled; an artist rip that panicked before it ripped a release, or that ripped one exactly if something
   arrived; any other rip that failed, or that was ripped and arrived.
   */
  lemma RuleMetIff(kind: Kind, e: Entry, attempt: Attempt, rs: seq<Release>, f: Facts, arrived: bool)
    requires Coherent(kind, e, rs, f, arrived)
    ensures var r := RipOf(kind, e, attempt, rs, f, arrived);
            && WellFormed(r) && StopsAt(rs) <= |rs|
            && (Settled(kind, SharedOf(r), f) == Rule(r) <==>
                if !GetsIn(e) then kind.ArtistRip?
                else if f.ctxCancelled then true
                else if kind.ArtistRip? then
                  if ArtistEnd(rs).Panicked? then RippedIn(rs[..StopsAt(rs)]) == 0 else RippedIn(rs) > 0 <==> arrived
                else attempt == Failed || (attempt == Ripped && arrived))
  {
    StopsWithin(rs);
    CoherentIsWellFormed(kind, e, attempt, rs, f, arrived);
    if StopsAt(rs) == |rs| {
      assert rs[..|rs|] == rs;
    }
  }

  /** From what happens to a rip: whether its slot is returned. */
  predicate RefundDue(kind: Kind, e: Entry, attempt: Attempt, rs: seq<Release>, f: Facts) {
    if !GetsIn(e) then kind.ArtistRip?
    else if f.ctxCancelled then !f.ownerCancelled || !(if PerRelease(kind) then 2 * f.parts > Total(kind) > 0 else f.flushedAny)
    else if kind.ArtistRip? then forall i :: 0 <= i < |rs| && i < StopsAt(rs) ==> rs[i].id == "" || rs[i].attempt != Ripped
    else attempt == Failed
  }

  lemma {:induction false} NoneRippedIff(rs: seq<Release>)
    ensures RippedIn(rs) == 0 <==> forall i :: 0 <= i < |rs| ==> rs[i].id == "" || rs[i].attempt != Ripped
  {
    if rs != [] {
      NoneRippedIff(rs[1..]);
      assert forall i :: 0 < i < |rs| ==> rs[i] == rs[1..][i - 1];
    }
  }

  lemma SettledByEvents(kind: Kind, e: Entry, attempt: Attempt, rs: seq<Release>, f: Facts, v: Shared)
    requires v.captured == GetsIn(e) && (!kind.ArtistRip? ==> v.fnErr == (EndOf(kind, e, attempt, rs) == Returned(true)))
    requires StopsAt(rs) <= |rs| && v.releasesOK == if GetsIn(e) && kind.ArtistRip? then RippedIn(rs[..StopsAt(rs)]) else 0
    ensures Settled(kind, v, f) == Refunded <==> RefundDue(kind, e, attempt, rs, f)
  {
    var r := RipOf(kind, e, attempt, rs, f, false);
    SettledAsShared(r, v);
    RefundedIff(r);
    NoneRippedIff(rs[..StopsAt(rs)]);
  }

  /** Only these variables matter for the settlement. */
  lemma SettledAsShared(r: Rip, v: Shared)
    requires v.captured == !r.end.NotRun? && v.releasesOK == r.releasesOK
    requires !r.kind.ArtistRip? ==> v.fnErr == (r.end == Returned(true))
    ensures Settled(r.kind, v, r.facts) == Settled(r.kind, SharedOf(r), r.facts)
  {
  }

  // ---- the code -----------------------------------------------------------

  /** The function of an artist rip: per-release errors are swallowed, a cancellation is seen between releases. */
  method ArtistFn(rs: seq<Release>) returns (v: Shared, end: FnEnd)
    ensures end == ArtistEnd(rs) && v.captured && StopsAt(rs) <= |rs| && v.releasesOK == RippedIn(rs[..StopsAt(rs)])
  {
    StopsWithin(rs);
    var releasesOK := 0;
    for i := 0 to |rs|
      invariant forall k :: 0 <= k < i ==> !rs[k].cancelledBefore && (rs[k].id == "" || rs[k].attempt != Panics)
      invariant releasesOK == RippedIn(rs[..i])
    {
      StopsFrom(rs, i);
      RippedSnoc(rs, i);
      if rs[i].cancelledBefore {
        return Shared(true, false, releasesOK), Returned(true);
      }
      if rs[i].id == "" {
        continue;
      }
      if rs[i].attempt == Panics {
        return Shared(true, false, releasesOK), Panicked;
      }
      if rs[i].attempt == Ripped {
        releasesOK := releasesOK + 1;
      }
    }
    StopsFrom(rs, |rs|);
    return Shared(true, false, releasesOK), Returned(false);
  }

  /** The function of an album or playlist rip; a panic leaves its error variable as it was. */
  method CollectionFn(attempt: Attempt) returns (v: Shared, end: FnEnd)
    ensures end == if attempt == Panics then Panicked else Returned(attempt == Failed)
    ensures v == Shared(true, end == Returned(true), 0)
  {
    v := Shared(true, false, 0);
    if attempt == Panics {
      return v, Panicked;
    }
    v := v.(fnErr := attempt == Failed);
    end := Returned(v.fnErr);
  }

  /**
   A rip from runDownload to the closure that settles its charge. The charge, if there is one, is closed
   as the rip's variables say, whichever way the rip ended.
   */
  method RunAndSettle(table: QuotaTable, chargeID: ChargeId, kind: Kind, e: Entry, attempt: Attempt, rs: seq<Release>, f: Facts)
    returns (v: Shared, end: FnEnd)
    modifies table
    ensures end == EndOf(kind, e, attempt, rs)
    ensures v.captured == !end.NotRun? && (!kind.ArtistRip? ==> v.fnErr == (end == Returned(true)))
    ensures StopsAt(rs) <= |rs| && v.releasesOK == if GetsIn(e) && kind.ArtistRip? then RippedIn(rs[..StopsAt(rs)]) else 0
    ensures table.Table() == Finalized(old(table.Table()), chargeID, Settled(kind, v, f))
    ensures chargeID != "" && old(IsOpen(table.Table(), chargeID)) ==>
              chargeID in table.quotaCharges &&
              table.quotaCharges[chargeID].state == if RefundDue(kind, e, attempt, rs, f) then Refunded else Committed
    ensures chargeID != "" ==> !IsOpen(table.Table(), chargeID)
    ensures old(Consistent(table.Table())) ==> Consistent(table.Table())
  {
    StopsWithin(rs);
    v, end := FRESH, NotRun;
    if !e.ctxCancelled && !e.ffmpegMissing && !e.boardFails {
      if kind.ArtistRip? {
        v, end := ArtistFn(rs);
      } else {
        v, end := CollectionFn(attempt);
      }
    }
    SettledByEvents(kind, e, attempt, rs, f, v);
    table.FinalizeHeavy(chargeID, OutcomeOf(kind, v, f), Total(kind), PerRelease(kind));
  }
}
