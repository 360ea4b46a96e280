/** One batch of the file deletion worker, and its statistics. */
module AttachmentWorker {
  import opened Basics
  import opened AttachmentTables

  datatype Category = PermissionDenied | IoError | DatabaseError | Multiple

  datatype Stats = Stats(claimed: nat, deleted: nat, retried: nat, failed: nat, error: Option<Category>)

  const NO_WORK := Stats(0, 0, 0, 0, None)

  /** What the file system answers to the removal of a file. */
  datatype Unlink = Unlinked | NotFound | Denied | Failing | BadPath

  /** What the store answers to an update: whether a record matched, or an error. */
  datatype Reply = Updated(matched: bool) | Broken

  datatype Ticket = Ticket(key: Key, token: Uuid)
  datatype Call = CompleteCall(ticket: Ticket) | RetryCall(ticket: Ticket)

  /** `None` when the file is gone; a missing file counts as deleted. */
  function DeleteFile(u: Unlink): (r: Option<Category>)
    ensures r.None? <==> u in {Unlinked, NotFound}
    ensures r == Some(PermissionDenied) <==> u == Denied
  {
    match u
    case Unlinked => None
    case NotFound => None
    case Denied => Some(PermissionDenied)
    case Failing => Some(IoError)
    case BadPath => Some(IoError)
  }

  function RecordError(error: Option<Category>, c: Category): Option<Category> {
    match error
    case None => Some(c)
    case Some(e) => if e == c then Some(e) else Some(Multiple)
  }

  /** No category without errors, the common one if all agree, and otherwise `Multiple`. */
  function Summary(errors: set<Category>): Option<Category> {
    if errors == {} then None
    else if errors == {PermissionDenied} then Some(PermissionDenied)
    else if errors == {IoError} then Some(IoError)
    else if errors == {DatabaseError} then Some(DatabaseError)
    else Some(Multiple)
  }

  lemma RecordSummarises(errors: set<Category>, c: Category)
    requires Multiple !in errors && c != Multiple
    ensures RecordError(Summary(errors), c) == Summary(errors + {c})
  {
    if errors == {} {
      assert errors + {c} == {c};
    } else {
      assert c in errors + {c};
      forall e | e in errors && e != c ensures errors + {c} != {c} && Summary(errors) != Some(c) {
        assert e in errors + {c};
      }
      if errors == {c} { assert errors + {c} == errors; }
      var some := SomeElement(errors);
      if forall e :: e in errors ==> e == c { assert errors == {c}; }
    }
  }

  // ----- what happens to one ticket -----

  function CallFor(t: Ticket, u: Unlink): Call {
    if u in {Unlinked, NotFound} then CompleteCall(t) else RetryCall(t)
  }

  predicate Deletes(u: Unlink, r: Reply) {
    u in {Unlinked, NotFound} && r == Updated(true)
  }

  predicate Retries(u: Unlink, r: Reply) {
    u !in {Unlinked, NotFound} && r == Updated(true)
  }

  function ErrorsOf(u: Unlink, r: Reply): set<Category> {
    (if u == Denied then {PermissionDenied} else if u == Failing || u == BadPath then {IoError} else {})
    + (if r == Updated(true) then {} else {DatabaseError})
  }

  /** How many of the answers satisfy `p`. */
  function Count(answers: seq<(Unlink, Reply)>, p: (Unlink, Reply) -> bool): (n: nat)
    ensures n <= |answers|
  {
    if answers == [] then 0
    else Count(answers[..|answers| - 1], p) + (if p(answers[|answers| - 1].0, answers[|answers| - 1].1) then 1 else 0)
  }

  function AllErrors(answers: seq<(Unlink, Reply)>): (errors: set<Category>)
    ensures Multiple !in errors
    ensures forall c :: c in errors <==> exists i :: 0 <= i < |answers| && c in ErrorsOf(answers[i].0, answers[i].1)
  {
    if answers == [] then {}
    else
      var last := answers[|answers| - 1];
      AllErrors(answers[..|answers| - 1]) + ErrorsOf(last.0, last.1)
  }

  lemma CountStep(answers: seq<(Unlink, Reply)>, i: nat, p: (Unlink, Reply) -> bool)
    requires i < |answers|
    ensures Count(answers[..i + 1], p) == Count(answers[..i], p) + (if p(answers[i].0, answers[i].1) then 1 else 0)
  {
    assert answers[..i + 1][..i] == answers[..i];
  }

  lemma AllErrorsNext(answers: seq<(Unlink, Reply)>, i: nat)
    requires i < |answers|
    ensures AllErrors(answers[..i + 1]) == AllErrors(answers[..i]) + ErrorsOf(answers[i].0, answers[i].1)
  {
    assert answers[..i + 1][..i] == answers[..i];
  }

  /** The category after one more ticket, as the code updates it. */
  lemma ErrorStep(answers: seq<(Unlink, Reply)>, i: nat, error: Option<Category>)
    requires i < |answers| && error == Summary(AllErrors(answers[..i]))
    ensures var u, reply := answers[i].0, answers[i].1;
            var removal := DeleteFile(u);
            var afterDisk := if removal.None? then error else RecordError(error, removal.value);
            Summary(AllErrors(answers[..i + 1])) ==
            if reply == Updated(true) then afterDisk else RecordError(afterDisk, DatabaseError)
  {
    hide Summary, RecordError, AllErrors;
    var u, reply := answers[i].0, answers[i].1;
    var seen := AllErrors(answers[..i]);
    AllErrorsNext(answers, i);
    var removal := DeleteFile(u);
    var disk := if removal.None? then {} else {removal.value};
    if removal.Some? { RecordSummarises(seen, removal.value); }
    RecordSummarises(seen + disk, DatabaseError);
    assert seen + {} == seen;
    assert seen + ErrorsOf(u, reply) == if reply == Updated(true) then seen + disk else seen + disk + {DatabaseError};
  }

  /** One ticket: remove the file, then complete or retry, and count the outcome. */
  method Process(stats: Stats, t: Ticket, u: Unlink, reply: Reply) returns (r: Stats, call: Call)
    ensures call == CallFor(t, u)
    ensures r.claimed == stats.claimed
    ensures r.deleted == stats.deleted + (if Deletes(u, reply) then 1 else 0)
    ensures r.retried == stats.retried + (if Retries(u, reply) then 1 else 0)
    ensures r.failed == stats.failed + (if reply == Updated(true) then 0 else 1)
    ensures var removal := DeleteFile(u);
            var afterDisk := if removal.None? then stats.error else RecordError(stats.error, removal.value);
            r.error == if reply == Updated(true) then afterDisk else RecordError(afterDisk, DatabaseError)
  {
    var removal := DeleteFile(u);
    if removal.None? {
      call := CompleteCall(t);
      if reply == Updated(true) {
        r := stats.(deleted := stats.deleted + 1);
      } else {
        r := stats.(failed := stats.failed + 1, error := RecordError(stats.error, DatabaseError));
      }
    } else {
      r := stats.(error := RecordError(stats.error, removal.value));
      call := RetryCall(t);
      if reply == Updated(true) {
        r := r.(retried := r.retried + 1);
      } else {
        r := r.(failed := r.failed + 1, error := RecordError(r.error, DatabaseError));
      }
    }
  }

  lemma OneCounter(u: Unlink, reply: Reply)
    ensures reply == Updated(true) <==> Deletes(u, reply) || Retries(u, reply)
    ensures !(Deletes(u, reply) && Retries(u, reply))
  {
  }

  /** Claimed tickets are worked through in order: remove the file, then complete or retry. The answers of the
      disk and of the store come from outside. */
  method ProcessBatch(claimed: Option<seq<Ticket>>, answers: seq<(Unlink, Reply)>)
    returns (stats: Stats, calls: seq<Call>)
    requires claimed.Some? ==> |answers| == |claimed.value|
    ensures claimed.None? ==> stats == Stats(0, 0, 0, 1, Some(DatabaseError)) && calls == []
    ensures claimed.Some? ==>
              && stats.claimed == |claimed.value| == stats.deleted + stats.retried + stats.failed
              && stats.deleted == Count(answers, Deletes)
              && stats.retried == Count(answers, Retries)
              && stats.error == Summary(AllErrors(answers))
              && |calls| == |claimed.value|
              && forall i :: 0 <= i < |calls| ==> calls[i] == CallFor(claimed.value[i], answers[i].0)
  {
    hide RecordError, ErrorsOf, CallFor, Deletes, Retries, DeleteFile;
    if claimed.None? {
      return NO_WORK.(failed := 1, error := Some(DatabaseError)), [];
    }
    var tickets := claimed.value;
    stats, calls := NO_WORK.(claimed := |tickets|), [];
    assert answers[..0] == [];
    hide Summary, AllErrors, Count;
    var i := 0;
    while i < |tickets|
      invariant i <= |tickets| && |calls| == i
      invariant stats.claimed == |tickets| && stats.deleted + stats.retried + stats.failed == i
      invariant stats.deleted == Count(answers[..i], Deletes)
      invariant stats.retried == Count(answers[..i], Retries)
      invariant stats.error == Summary(AllErrors(answers[..i]))
      invariant forall j :: 0 <= j < i ==> calls[j] == CallFor(tickets[j], answers[j].0)
    {
      CountStep(answers, i, Deletes);
      CountStep(answers, i, Retries);
      ErrorStep(answers, i, stats.error);
      OneCounter(answers[i].0, answers[i].1);
      var call;
      stats, call := Process(stats, tickets[i], answers[i].0, answers[i].1);
      calls := calls + [call];
      i := i + 1;
    }
    assert answers[..i] == answers;
  }
}

/** The bounded, resumable scan for files that no row refers to. */
module OrphanScans {
  import opened Basics
  import opened AttachmentWorker

  const BATCH: nat := 100
  const EXTENSIONS := ["png", "jpg", "webp"]
  const I64_MAX: nat := 0x7fff_ffff_ffff_ffff

  // ----- names of uploaded files -----

  predicate LowerHex(c: char) {
    '0' <= c <= '9' || 'a' <= c <= 'f'
  }

  /** An identifier as its 32 hexadecimal digits. */
  predicate IsUuid(u: string) {
    |u| == 32 && forall i :: 0 <= i < 32 ==> LowerHex(u[i])
  }

  function Hyphenated(u: string): string
    requires |u| == 32
  {
    u[..8] + "-" + u[8..12] + "-" + u[12..16] + "-" + u[16..20] + "-" + u[20..]
  }

  function FileName(u: string, extension: string): string
    requires |u| == 32
  {
    Hyphenated(u) + "." + extension
  }

  predicate CanonicalUuid(s: string) {
    && |s| == 36
    && (forall i :: 0 <= i < 36 ==> if i in {8, 13, 18, 23} then s[i] == '-' else LowerHex(s[i]))
  }

  function LastDot(s: string): (r: Option<nat>)
    ensures r.Some? ==> r.value < |s| && s[r.value] == '.' && forall i :: r.value < i < |s| ==> s[i] != '.'
    ensures r.None? ==> '.' !in s
  {
    if s == [] then None
    else if s[|s| - 1] == '.' then Some(|s| - 1)
    else LastDot(s[..|s| - 1])
  }

  predicate StrictName(name: string) {
    var dot := LastDot(name);
    dot.Some? && name[dot.value + 1..] in EXTENSIONS && CanonicalUuid(name[..dot.value])
  }

  lemma HyphenatedIsCanonical(u: string)
    requires |u| == 32
    ensures IsUuid(u) ==> CanonicalUuid(Hyphenated(u))
  {
    var s := Hyphenated(u);
    forall i | 0 <= i < 36 && IsUuid(u) ensures if i in {8, 13, 18, 23} then s[i] == '-' else LowerHex(s[i]) {
      if i !in {8, 13, 18, 23} {
        assert s[i] == u[if i < 8 then i else if i < 13 then i - 1
                        else if i < 18 then i - 2 else if i < 23 then i - 3 else i - 4];
      }
    }
  }

  lemma CanonicalHasDigits(s: string) returns (u: string)
    requires |s| == 36
    ensures CanonicalUuid(s) ==> IsUuid(u) && Hyphenated(u) == s
  {
    if !CanonicalUuid(s) {
      return "";
    }
    u := s[..8] + s[9..13] + s[14..18] + s[19..23] + s[24..];
    assert u[..8] == s[..8] && u[8..12] == s[9..13] && u[12..16] == s[14..18];
    assert u[16..20] == s[19..23] && u[20..] == s[24..];
    assert s == s[..8] + "-" + s[9..13] + "-" + s[14..18] + "-" + s[19..23] + "-" + s[24..];
    forall i | 0 <= i < 32 ensures LowerHex(u[i]) {
      assert u[i] == s[if i < 8 then i else if i < 12 then i + 1
                      else if i < 16 then i + 2 else if i < 20 then i + 3 else i + 4];
    }
  }

  lemma ExtensionsHaveNoDot(e: string)
    requires e in EXTENSIONS
    ensures '.' !in e
  {
  }

  /** The names the scan accepts are exactly those under which uploads are stored. */
  lemma StrictIsUploaded(name: string)
    ensures StrictName(name) <==> exists u, e :: IsUuid(u) && e in EXTENSIONS && name == FileName(u, e)
  {
    if StrictName(name) {
      var dot := LastDot(name).value;
      var u := CanonicalHasDigits(name[..dot]);
      assert name == FileName(u, name[dot + 1..]);
    }
    if u, e :| IsUuid(u) && e in EXTENSIONS && name == FileName(u, e) {
      ExtensionsHaveNoDot(e);
      HyphenatedIsCanonical(u);
      assert name[36] == '.' && name[37..] == e && name[..36] == Hyphenated(u);
      forall i | 36 < i < |name| ensures name[i] != '.' {
        assert name[i] == e[i - 37];
      }
      assert LastDot(name) == Some(36);
    }
  }

  // ----- the scan -----

  /** A directory entry; `None` where reading that attribute fails or it does not fit. */
  datatype Entry = Entry(name: Option<string>, isFile: Option<bool>, modified: Option<nat>, size: nat)
  datatype Item = Found(entry: Entry) | ReadError
  datatype Opening = Opened(items: seq<Item>) | DirectoryMissing | OpenFails
  datatype Result = Result(inspected: nat, enqueued: nat, reachedEnd: bool)
  datatype Offer = Offer(name: string, size: nat)

  /** An old regular file with an upload's name, of a size the accounting can hold. */
  predicate Candidate(e: Entry, staleBefore: nat): (candidate: bool)
    ensures candidate ==> e.name.Some?
  {
    && e.name.Some? && StrictName(e.name.value)
    && e.isFile == Some(true)
    && e.modified.Some? && e.modified.value < staleBefore
    && e.size <= I64_MAX
  }

  function OfferOf(e: Entry): Offer
    requires e.name.Some?
  {
    Offer(e.name.value, e.size)
  }

  function Offers(items: seq<Item>, staleBefore: nat): seq<Offer> {
    if items == [] then []
    else
      var last := items[|items| - 1];
      Offers(items[..|items| - 1], staleBefore)
      + (if last.Found? && Candidate(last.entry, staleBefore) then [OfferOf(last.entry)] else [])
  }

  lemma NothingRead(items: seq<Item>, staleBefore: nat, reply: Offer -> Reply)
    ensures Offers(items[..0], staleBefore) == [] && Accepted([], reply) == 0
  {
  }

  lemma OffersStep(items: seq<Item>, i: nat, staleBefore: nat)
    requires i < |items| && items[i].Found?
    ensures Offers(items[..i + 1], staleBefore) ==
            if Candidate(items[i].entry, staleBefore)
            then Offers(items[..i], staleBefore) + [OfferOf(items[i].entry)]
            else Offers(items[..i], staleBefore)
  {
    assert items[..i + 1][..i] == items[..i];
  }

  /** How many entries one run inspects: up to the batch size, the end, or the first read error. */
  function Reach(items: seq<Item>, limit: nat): (n: nat)
    ensures n <= limit && n <= |items|
    ensures forall i :: 0 <= i < n ==> items[i].Found?
    ensures n == limit || n == |items| || items[n].ReadError?
  {
    if limit == 0 || items == [] || items[0].ReadError? then 0 else 1 + Reach(items[1..], limit - 1)
  }

  lemma {:induction false} ReachIs(items: seq<Item>, limit: nat, n: nat)
    requires n <= limit && n <= |items| && forall i :: 0 <= i < n ==> items[i].Found?
    requires n == limit || n == |items| || items[n].ReadError?
    ensures Reach(items, limit) == n
    decreases n
  {
    if n > 0 {
      ReachIs(items[1..], limit - 1, n - 1);
    }
  }

  function Accepted(offers: seq<Offer>, reply: Offer -> Reply): nat {
    if offers == [] then 0
    else Accepted(offers[..|offers| - 1], reply) + (if reply(offers[|offers| - 1]) == Updated(true) then 1 else 0)
  }

  lemma AcceptedStep(offers: seq<Offer>, o: Offer, reply: Offer -> Reply)
    ensures Accepted(offers + [o], reply) == Accepted(offers, reply) + (if reply(o) == Updated(true) then 1 else 0)
  {
    assert (offers + [o])[..|offers|] == offers;
  }

  /** What is left to read after a run: nothing at the end of the directory or after a read error. */
  function Left(items: seq<Item>): Option<seq<Item>> {
    if Reach(items, BATCH) == BATCH then Some(items[BATCH..]) else None
  }

  class AttachmentOrphanScan {
    var entries: Option<seq<Item>>

    constructor ()
      ensures entries == None
    {
      entries := None;
    }

    method RunBefore(opening: Opening, staleBefore: nat, reply: Offer -> Reply) returns (r: Result, offers: seq<Offer>)
      modifies this
      ensures old(entries).None? && !opening.Opened? ==>
                entries == None && offers == [] && r == Result(0, 0, opening.DirectoryMissing?)
      ensures old(entries).Some? || opening.Opened? ==>
                var items := if old(entries).Some? then old(entries).value else opening.items;
                var n := Reach(items, BATCH);
                && offers == Offers(items[..n], staleBefore)
                && entries == Left(items)
                && r == Result(n, Accepted(offers, reply), n < BATCH && n == |items|)
    {
      if entries.None? {
        match opening {
          case Opened(items) => entries := Some(items);
          case DirectoryMissing => return Result(0, 0, true), [];
          case OpenFails => return Result(0, 0, false), [];
        }
      }
      r, offers := ReadBatch(staleBefore, reply);
    }

    /** The loop over the open directory. */
    method ReadBatch(staleBefore: nat, reply: Offer -> Reply) returns (r: Result, offers: seq<Offer>)
      requires entries.Some?
      modifies this
      ensures var items := old(entries).value;
              var n := Reach(items, BATCH);
              && offers == Offers(items[..n], staleBefore)
              && entries == Left(items)
              && r == Result(n, Accepted(offers, reply), n < BATCH && n == |items|)
    {
      hide Candidate, Offers, Accepted, Reach;
      var inspected, enqueued, reachedEnd, failed := 0, 0, false, false;
      ghost var items := entries.value;
      offers := [];
      NothingRead(items, staleBefore, reply);
      while inspected < BATCH && !reachedEnd && !failed
        invariant inspected <= BATCH && inspected <= |items|
        invariant !reachedEnd && !failed ==> entries == Some(items[inspected..])
        invariant reachedEnd ==> inspected == |items| < BATCH && entries.None?
        invariant failed ==> inspected < |items| && inspected < BATCH && items[inspected].ReadError?
        invariant failed ==> entries.None? && !reachedEnd
        invariant forall i :: 0 <= i < inspected ==> items[i].Found?
        invariant offers == Offers(items[..inspected], staleBefore)
        invariant enqueued == Accepted(offers, reply)
        decreases BATCH - inspected, !reachedEnd && !failed
      {
        if entries.value == [] {
          entries, reachedEnd := None, true;
        } else if entries.value[0].ReadError? {
          entries, failed := None, true;
        } else {
          var entry := entries.value[0].entry;
          entries := Some(entries.value[1..]);
          OffersStep(items, inspected, staleBefore);
          inspected := inspected + 1;
          if Candidate(entry, staleBefore) {
            var offer := OfferOf(entry);
            AcceptedStep(offers, offer, reply);
            if reply(offer) == Updated(true) {
              enqueued := enqueued + 1;
            }
            offers := offers + [offer];
          }
        }
      }
      ReachIs(items, BATCH, inspected);
      r := Result(inspected, enqueued, reachedEnd);
    }
  }

  // ----- successive runs over one directory -----

  /** The slice of the directory that run number `i` inspects. */
  function Slice(items: seq<Item>, i: nat): seq<Item> {
    if |items| <= i * BATCH then []
    else if |items| <= (i + 1) * BATCH then items[i * BATCH..]
    else items[i * BATCH..(i + 1) * BATCH]
  }

  /** What is left after `i` runs on an open directory. */
  function LeftAfter(items: seq<Item>, i: nat): Option<seq<Item>>
    decreases i
  {
    if i == 0 then Some(items)
    else if Left(items).None? then None
    else LeftAfter(Left(items).value, i - 1)
  }

  /** Without read errors, run `i` inspects exactly slice `i`; the directory is finished by run number
      length / 100, which reports the end, and by no earlier one. */
  lemma {:induction false} RunsPartition(items: seq<Item>, i: nat)
    requires forall k :: 0 <= k < |items| ==> items[k].Found?
    requires i * BATCH <= |items|
    ensures LeftAfter(items, i) == Some(items[i * BATCH..])
    ensures var left := items[i * BATCH..];
            && left[..Reach(left, BATCH)] == Slice(items, i)
            && (Left(left).None? <==> i == |items| / BATCH)
  {
    var left := items[i * BATCH..];
    ReachIs(left, BATCH, Min(BATCH, |left|));
    if i > 0 {
      ReachIs(items, BATCH, BATCH);
      SliceOfRest(items, i);
      hide Reach;
      RunsPartition(items[BATCH..], i - 1);
    }
  }

  lemma SliceOfRest(items: seq<Item>, i: nat)
    requires 0 < i && i * BATCH <= |items|
    ensures items[BATCH..][(i - 1) * BATCH..] == items[i * BATCH..]
  {
  }

  lemma {:induction false} OffersHas(items: seq<Item>, staleBefore: nat, p: nat)
    requires p < |items| && items[p].Found?
    ensures Candidate(items[p].entry, staleBefore) ==> OfferOf(items[p].entry) in Offers(items, staleBefore)
    decreases |items|
  {
    if p < |items| - 1 {
      assert items[..|items| - 1][p] == items[p];
      OffersHas(items[..|items| - 1], staleBefore, p);
    }
  }

  /** What is offered to the queue: the name and size of every entry read that is a
      regular file, has the name of an upload, was last modified before the cutoff, and is not too large to count. */
  lemma {:induction false} OffersExactly(items: seq<Item>, staleBefore: nat, o: Offer)
    ensures o in Offers(items, staleBefore) <==>
            exists p :: 0 <= p < |items| && items[p].Found? && Offerable(items[p].entry, staleBefore, o)
    decreases |items|
  {
    hide Candidate, Offerable;
    if items != [] {
      var n := |items| - 1;
      OffersExactly(items[..n], staleBefore, o);
      if items[n].Found? { CandidateExactly(items[n].entry, staleBefore, o); }
      assert forall p :: 0 <= p < n ==> items[..n][p] == items[p];
    }
  }

  ghost predicate Offerable(e: Entry, staleBefore: nat, o: Offer) {
    && e.name == Some(o.name) && e.size == o.size && o.size <= 0x7fff_ffff_ffff_ffff
    && e.isFile == Some(true) && e.modified.Some? && e.modified.value < staleBefore
    && exists u, x :: IsUuid(u) && x in EXTENSIONS && o.name == FileName(u, x)
  }

  lemma CandidateExactly(e: Entry, staleBefore: nat, o: Offer)
    ensures Candidate(e, staleBefore) && OfferOf(e) == o <==> Offerable(e, staleBefore, o)
  {
    if e.name.Some? { StrictIsUploaded(e.name.value); }
    hide StrictName, IsUuid, FileName;
  }

  /** Every file that is a candidate when its slice is read is offered to the queue in that run. */
  lemma EveryOrphanOffered(items: seq<Item>, p: nat, staleBefore: nat)
    requires forall k :: 0 <= k < |items| ==> items[k].Found?
    requires p < |items|
    ensures var left := LeftAfter(items, p / BATCH);
            && left.Some?
            && (Candidate(items[p].entry, staleBefore) ==>
                  OfferOf(items[p].entry) in Offers(left.value[..Reach(left.value, BATCH)], staleBefore))
  {
    RunsPartition(items, p / BATCH);
    var slice := Slice(items, p / BATCH);
    assert slice[p % BATCH] == items[p];
    OffersHas(slice, staleBefore, p % BATCH);
  }
}
