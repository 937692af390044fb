/** The outreach ledger of storage/storage.go: the SQLite tables
    `sent_requests` and `message_records`, held in memory as sequences of
    rows in rowid order, with the statements the Go methods run on them. */
module Storage {
  import opened Wrappers

  /** The lifecycle tag of a connection request; the `status` column stores
      its text. */
  datatype RequestStatus = Pending | Accepted | Rejected | Sent

  /** The text each status is stored as. */
  function StatusText(s: RequestStatus): string {
    match s
    case Pending => "pending"
    case Accepted => "accepted"
    case Rejected => "rejected"
    case Sent => "sent"
  }

  /** The status a `status` column's text reads back as, when it is one of
      the four texts. */
  function ParseStatus(t: string): (r: Option<RequestStatus>)
    ensures r.Some? ==> StatusText(r.value) == t
  {
    if t == "pending" then Some(Pending)
    else if t == "accepted" then Some(Accepted)
    else if t == "rejected" then Some(Rejected)
    else if t == "sent" then Some(Sent)
    else None
  }

  /** A stored status reads back as itself, so distinct statuses are stored
      as distinct texts. */
  lemma StatusRoundTrip(s: RequestStatus)
    ensures ParseStatus(StatusText(s)) == Some(s)
  {
    match s
    case Pending =>
    case Accepted =>
      assert StatusText(s) != "pending" by { assert StatusText(s)[0] != "pending"[0]; }
    case Rejected =>
      assert StatusText(s) != "pending" by { assert StatusText(s)[0] != "pending"[0]; }
      assert StatusText(s) != "accepted" by { assert StatusText(s)[0] != "accepted"[0]; }
    case Sent =>
      assert StatusText(s) != "pending" by { assert StatusText(s)[0] != "pending"[0]; }
      assert StatusText(s) != "accepted" by { assert StatusText(s)[0] != "accepted"[0]; }
      assert StatusText(s) != "rejected" by { assert StatusText(s)[0] != "rejected"[0]; }
  }

  /** A row of `sent_requests`; `sentAt` is a timestamp in seconds. */
  datatype SentRequest = SentRequest(id: nat, profileURL: string, note: string, sentAt: int, status: RequestStatus)

  /** A row of `message_records`. */
  datatype MessageRecord = MessageRecord(id: nat, profileURL: string, message: string, sentAt: int, templateUsed: string)

  /** Why a statement failed: any error the database engine reports, or the
      UNIQUE constraint on `sent_requests.profile_url`. */
  datatype DbError = EngineFailure | UniqueViolation

  /** The wall clock read by a call: the current instant and the bounds of
      the local calendar day, `[todayStart, tomorrowStart)`. */
  datatype Clock = Clock(now: int, todayStart: int, tomorrowStart: int)

  // ---------------------------------------------------------------------
  // sent_requests
  // ---------------------------------------------------------------------

  /** `profile_url TEXT NOT NULL UNIQUE`. */
  ghost predicate UniqueURLs(rs: seq<SentRequest>) {
    forall i, j :: 0 <= i < j < |rs| ==> rs[i].profileURL != rs[j].profileURL
  }

  predicate HasRequest(rs: seq<SentRequest>, url: string) {
    exists i :: 0 <= i < |rs| && rs[i].profileURL == url
  }

  /** `SELECT ... FROM sent_requests WHERE profile_url = ?`: the first row
      with exactly that URL, if any. */
  function FindRequest(rs: seq<SentRequest>, url: string): (r: Option<SentRequest>)
    ensures r.Some? ==> r.value in rs && r.value.profileURL == url
    ensures r.None? <==> !HasRequest(rs, url)
  {
    if rs == [] then None
    else if rs[0].profileURL == url then Some(rs[0])
    else
      var r := FindRequest(rs[1..], url);
      assert HasRequest(rs, url) ==> HasRequest(rs[1..], url) by {
        if HasRequest(rs, url) {
          var i :| 0 <= i < |rs| && rs[i].profileURL == url;
          assert rs[1..][i - 1] == rs[i];
        }
      }
      assert HasRequest(rs[1..], url) ==> HasRequest(rs, url) by {
        if HasRequest(rs[1..], url) {
          var i :| 0 <= i < |rs[1..]| && rs[1..][i].profileURL == url;
          assert rs[i + 1] == rs[1..][i];
        }
      }
      r
  }

  /** Under the UNIQUE constraint, the lookup returns THE record of that URL. */
  lemma {:induction false} FindRequestUnique(rs: seq<SentRequest>, i: nat, url: string)
    requires UniqueURLs(rs)
    requires i < |rs| && rs[i].profileURL == url
    ensures FindRequest(rs, url) == Some(rs[i])
  {
    if i > 0 {
      assert rs[0].profileURL != rs[i].profileURL;
      assert rs[1..][i - 1] == rs[i];
      FindRequestUnique(rs[1..], i - 1, url);
    }
  }

  /** `UPDATE sent_requests SET status = ? WHERE profile_url = ?`. */
  function WithStatus(rs: seq<SentRequest>, url: string, st: RequestStatus): (r: seq<SentRequest>)
    ensures |r| == |rs|
    ensures forall i :: 0 <= i < |rs| ==>
      r[i] == if rs[i].profileURL == url then rs[i].(status := st) else rs[i]
  {
    if rs == [] then []
    else [if rs[0].profileURL == url then rs[0].(status := st) else rs[0]] + WithStatus(rs[1..], url, st)
  }

  /** An update for a URL without a record changes nothing; it is not an
      error. */
  lemma UpdateUnknownIsNoOp(rs: seq<SentRequest>, url: string, st: RequestStatus)
    requires !HasRequest(rs, url)
    ensures WithStatus(rs, url, st) == rs
  {
    assert forall i :: 0 <= i < |rs| ==> WithStatus(rs, url, st)[i] == rs[i];
  }

  /** Repeating an update changes nothing more. */
  lemma UpdateIdempotent(rs: seq<SentRequest>, url: string, st: RequestStatus)
    ensures WithStatus(WithStatus(rs, url, st), url, st) == WithStatus(rs, url, st)
  {
    var once := WithStatus(rs, url, st);
    assert forall i :: 0 <= i < |rs| ==> WithStatus(once, url, st)[i] == once[i];
  }

  /** An update changes no URL, so the UNIQUE constraint still holds. */
  lemma UpdateKeepsURLs(rs: seq<SentRequest>, url: string, st: RequestStatus)
    requires UniqueURLs(rs)
    ensures UniqueURLs(WithStatus(rs, url, st))
  {
    var r := WithStatus(rs, url, st);
    forall a, b | 0 <= a < b < |r|
      ensures r[a].profileURL != r[b].profileURL
    {
      assert r[a].profileURL == rs[a].profileURL && r[b].profileURL == rs[b].profileURL;
    }
  }

  /** An update of an existing URL makes the lookup report the new status
      and leaves every other field of the record as it was. */
  lemma UpdateThenFind(rs: seq<SentRequest>, url: string, st: RequestStatus)
    requires UniqueURLs(rs) && HasRequest(rs, url)
    ensures var before := FindRequest(rs, url);
            var after := FindRequest(WithStatus(rs, url, st), url);
            before.Some? && after == Some(before.value.(status := st))
  {
    var i :| 0 <= i < |rs| && rs[i].profileURL == url;
    var r := WithStatus(rs, url, st);
    FindRequestUnique(rs, i, url);
    UpdateKeepsURLs(rs, url, st);
    assert r[i] == rs[i].(status := st);
    FindRequestUnique(r, i, url);
  }

  predicate InWindow(r: SentRequest, from: int, until: int) {
    from <= r.sentAt < until
  }

  /** `SELECT COUNT(*) FROM sent_requests WHERE sent_at >= ? AND sent_at < ?`. */
  function CountInWindow(rs: seq<SentRequest>, from: int, until: int): (n: nat)
    ensures n <= |rs|
    ensures n == 0 <==> forall i :: 0 <= i < |rs| ==> !InWindow(rs[i], from, until)
    ensures n == |rs| <==> forall i :: 0 <= i < |rs| ==> InWindow(rs[i], from, until)
  {
    if rs == [] then 0
    else
      var prefix := rs[..|rs| - 1];
      var k := CountInWindow(prefix, from, until);
      assert forall i :: 0 <= i < |prefix| ==> prefix[i] == rs[i];
      k + if InWindow(rs[|rs| - 1], from, until) then 1 else 0
  }

  /** The indices of the rows whose timestamp lies in `[from, until)`. */
  ghost function WindowRows(rs: seq<SentRequest>, from: int, until: int): set<nat> {
    set i: nat | i < |rs| && InWindow(rs[i], from, until)
  }

  /** The count is the number of rows in the half-open window. */
  lemma {:induction false} CountIsWindowSize(rs: seq<SentRequest>, from: int, until: int)
    ensures CountInWindow(rs, from, until) == |WindowRows(rs, from, until)|
  {
    if rs != [] {
      var n := |rs| - 1;
      var prefix := rs[..n];
      CountIsWindowSize(prefix, from, until);
      var before := WindowRows(prefix, from, until);
      if InWindow(rs[n], from, until) {
        assert WindowRows(rs, from, until) == before + {n};
      } else {
        assert WindowRows(rs, from, until) == before;
      }
    }
  }

  /** Appending a row adds one to the count exactly when its timestamp is in
      the window. */
  lemma AppendCount(rs: seq<SentRequest>, r: SentRequest, from: int, until: int)
    ensures CountInWindow(rs + [r], from, until)
         == CountInWindow(rs, from, until) + if InWindow(r, from, until) then 1 else 0
  {
    assert (rs + [r])[..|rs|] == rs;
  }

  /** `SELECT profile_url FROM sent_requests WHERE status = ?`, collected in
      table order. */
  function URLsWithStatus(rs: seq<SentRequest>, st: RequestStatus): (urls: seq<string>)
    ensures |urls| <= |rs|
    ensures forall u :: u in urls <==>
      exists i :: 0 <= i < |rs| && rs[i].status == st && rs[i].profileURL == u
  {
    if rs == [] then []
    else
      var prefix := rs[..|rs| - 1];
      var last := rs[|rs| - 1];
      assert forall i :: 0 <= i < |prefix| ==> prefix[i] == rs[i];
      URLsWithStatus(prefix, st) + if last.status == st then [last.profileURL] else []
  }

  predicate NoDuplicates<T(==)>(s: seq<T>) {
    forall i, j :: 0 <= i < j < |s| ==> s[i] != s[j]
  }

  /** The set of the elements of a list. */
  function Elements(s: seq<string>): set<string> {
    set x | x in s
  }

  /** A list without duplicates has as many elements as its set has. */
  lemma {:induction false} DistinctCardinality(s: seq<string>)
    requires NoDuplicates(s)
    ensures |Elements(s)| == |s|
  {
    if s != [] {
      var tail := s[1..];
      assert NoDuplicates(tail);
      DistinctCardinality(tail);
      assert Elements(s) == {s[0]} + Elements(tail);
      assert s[0] !in Elements(tail);
    }
  }

  /** Under the UNIQUE constraint, a status filter lists each URL once. */
  lemma {:induction false} URLsWithStatusDistinct(rs: seq<SentRequest>, st: RequestStatus)
    requires UniqueURLs(rs)
    ensures NoDuplicates(URLsWithStatus(rs, st))
  {
    if rs != [] {
      var n := |rs| - 1;
      var prefix := rs[..n];
      assert UniqueURLs(prefix);
      URLsWithStatusDistinct(prefix, st);
      assert forall i :: 0 <= i < |prefix| ==> prefix[i].profileURL != rs[n].profileURL;
      assert rs[n].profileURL !in URLsWithStatus(prefix, st);
    }
  }

  // ---------------------------------------------------------------------
  // message_records
  // ---------------------------------------------------------------------

  predicate SameKey(a: MessageRecord, b: MessageRecord) {
    a.profileURL == b.profileURL && a.message == b.message && a.sentAt == b.sentAt
  }

  /** `UNIQUE(profile_url, message, sent_at)`. */
  ghost predicate UniqueKeys(ms: seq<MessageRecord>) {
    forall i, j :: 0 <= i < j < |ms| ==> !SameKey(ms[i], ms[j])
  }

  predicate HasMessageKey(ms: seq<MessageRecord>, url: string, message: string, sentAt: int) {
    exists i :: 0 <= i < |ms| && ms[i].profileURL == url && ms[i].message == message && ms[i].sentAt == sentAt
  }

  predicate HasMessage(ms: seq<MessageRecord>, url: string) {
    exists i :: 0 <= i < |ms| && ms[i].profileURL == url
  }

  /** `SELECT ... FROM message_records WHERE profile_url = ? ORDER BY sent_at
      DESC LIMIT 1`: a record of that profile with the latest timestamp (the
      earliest such row when several share it). */
  function LatestMessage(ms: seq<MessageRecord>, url: string): (r: Option<MessageRecord>)
    ensures r.None? <==> !HasMessage(ms, url)
    ensures r.Some? ==> r.value in ms && r.value.profileURL == url
    ensures r.Some? ==> forall i :: 0 <= i < |ms| && ms[i].profileURL == url ==> ms[i].sentAt <= r.value.sentAt
  {
    if ms == [] then None
    else
      var rest := LatestMessage(ms[1..], url);
      assert forall i :: 1 <= i < |ms| ==> ms[i] == ms[1..][i - 1];
      assert HasMessage(ms[1..], url) ==> HasMessage(ms, url) by {
        if HasMessage(ms[1..], url) {
          var i :| 0 <= i < |ms[1..]| && ms[1..][i].profileURL == url;
          assert ms[i + 1] == ms[1..][i];
        }
      }
      if ms[0].profileURL != url then rest
      else if rest.Some? && rest.value.sentAt > ms[0].sentAt then rest
      else Some(ms[0])
  }

  /** Saving a message for a profile makes the lookup find a record no
      older than it. */
  lemma {:induction false} LatestAfterAppend(ms: seq<MessageRecord>, m: MessageRecord)
    ensures var r := LatestMessage(ms + [m], m.profileURL);
            r.Some? && r.value.sentAt >= m.sentAt
  {
    var all := ms + [m];
    assert all[|ms|] == m;
    assert HasMessage(all, m.profileURL);
  }

  /** `SELECT sr.profile_url FROM sent_requests sr LEFT JOIN message_records
      mr ON sr.profile_url = mr.profile_url WHERE sr.status = ? AND mr.id IS
      NULL`, with `accepted` for the status: the anti-join, in table order. */
  function AcceptedWithoutMessage(rs: seq<SentRequest>, ms: seq<MessageRecord>): (urls: seq<string>)
    ensures |urls| <= |rs|
    ensures forall u :: u in urls <==>
      (exists i :: 0 <= i < |rs| && rs[i].status == Accepted && rs[i].profileURL == u) && !HasMessage(ms, u)
  {
    if rs == [] then []
    else
      var prefix := rs[..|rs| - 1];
      var last := rs[|rs| - 1];
      assert forall i :: 0 <= i < |prefix| ==> prefix[i] == rs[i];
      AcceptedWithoutMessage(prefix, ms)
        + if last.status == Accepted && !HasMessage(ms, last.profileURL) then [last.profileURL] else []
  }

  /** Under the UNIQUE constraint, the anti-join lists each URL once. */
  lemma {:induction false} AcceptedWithoutMessageDistinct(rs: seq<SentRequest>, ms: seq<MessageRecord>)
    requires UniqueURLs(rs)
    ensures NoDuplicates(AcceptedWithoutMessage(rs, ms))
  {
    if rs != [] {
      var n := |rs| - 1;
      var prefix := rs[..n];
      assert UniqueURLs(prefix);
      AcceptedWithoutMessageDistinct(prefix, ms);
      assert forall i :: 0 <= i < |prefix| ==> prefix[i].profileURL != rs[n].profileURL;
    }
  }

  /** `s` with every occurrence of `x` removed. */
  function Without(s: seq<string>, x: string): (r: seq<string>)
    ensures forall y :: y in r <==> y in s && y != x
  {
    if s == [] then []
    else
      assert forall i :: 1 <= i < |s| ==> s[i] == s[1..][i - 1];
      (if s[0] == x then [] else [s[0]]) + Without(s[1..], x)
  }

  /** Saving a message for a profile takes exactly that profile out of the
      accepted-without-message queue and keeps the order of the rest. */
  lemma {:induction false} SaveMessageDequeues(rs: seq<SentRequest>, ms: seq<MessageRecord>, m: MessageRecord)
    ensures AcceptedWithoutMessage(rs, ms + [m]) == Without(AcceptedWithoutMessage(rs, ms), m.profileURL)
  {
    if rs != [] {
      var n := |rs| - 1;
      var prefix := rs[..n];
      var u := rs[n].profileURL;
      SaveMessageDequeues(prefix, ms, m);
      var all := ms + [m];
      assert HasMessage(all, u) <==> HasMessage(ms, u) || u == m.profileURL by {
        assert all[|ms|] == m;
        assert forall i :: 0 <= i < |ms| ==> all[i] == ms[i];
      }
      var tailBefore := if rs[n].status == Accepted && !HasMessage(ms, u) then [u] else [];
      var tailAfter := if rs[n].status == Accepted && !HasMessage(all, u) then [u] else [];
      assert AcceptedWithoutMessage(rs, ms) == AcceptedWithoutMessage(prefix, ms) + tailBefore;
      assert AcceptedWithoutMessage(rs, all) == AcceptedWithoutMessage(prefix, all) + tailAfter;
      assert Without(tailBefore, m.profileURL) == tailAfter by {
        if tailBefore != [] {
          assert tailBefore[1..] == [];
        }
      }
      WithoutAppend(AcceptedWithoutMessage(prefix, ms), tailBefore, m.profileURL);
    }
  }

  lemma {:induction false} WithoutAppend(a: seq<string>, b: seq<string>, x: string)
    ensures Without(a + b, x) == Without(a, x) + Without(b, x)
  {
    if a != [] {
      assert (a + b)[1..] == a[1..] + b;
      WithoutAppend(a[1..], b, x);
    } else {
      assert a + b == b;
    }
  }

  // ---------------------------------------------------------------------
  // The Storage object
  // ---------------------------------------------------------------------

  /** `Storage`: one open database. `requestSeq` and `messageSeq` are the
      AUTOINCREMENT counters, the highest `id` each table has handed out. */
  class Storage {
    var requests: seq<SentRequest>
    var messages: seq<MessageRecord>
    var requestSeq: nat
    var messageSeq: nat

    /** The table constraints, and ids that grow with the rowid order. */
    ghost predicate Valid()
      reads this
    {
      && UniqueURLs(requests)
      && UniqueKeys(messages)
      && (forall i :: 0 <= i < |requests| ==> 0 < requests[i].id <= requestSeq)
      && (forall i, j :: 0 <= i < j < |requests| ==> requests[i].id < requests[j].id)
      && (forall i :: 0 <= i < |messages| ==> 0 < messages[i].id <= messageSeq)
      && (forall i, j :: 0 <= i < j < |messages| ==> messages[i].id < messages[j].id)
    }

    /** `NewStorage` on a new database file: both tables created empty. */
    constructor ()
      ensures Valid()
      ensures requests == [] && messages == [] && requestSeq == 0 && messageSeq == 0
    {
      requests, messages := [], [];
      requestSeq, messageSeq := 0, 0;
    }

    /** `SaveSentRequest`: INSERT the URL, note, time and status as given.
        `engineFault` is an error the database engine reports. */
    method SaveSentRequest(profileURL: string, note: string, sentAt: int, status: RequestStatus, engineFault: bool)
      returns (err: Option<DbError>)
      requires Valid()
      modifies this
      ensures Valid()
      ensures engineFault ==> err == Some(EngineFailure) && unchanged(this)
      ensures !engineFault && HasRequest(old(requests), profileURL) ==>
        err == Some(UniqueViolation) && unchanged(this)
      ensures !engineFault && !HasRequest(old(requests), profileURL) ==>
        && err == None
        && requestSeq == old(requestSeq) + 1
        && requests == old(requests) + [SentRequest(requestSeq, profileURL, note, sentAt, status)]
        && messages == old(messages) && messageSeq == old(messageSeq)
    {
      if engineFault {
        return Some(EngineFailure);
      }
      if HasRequest(requests, profileURL) {
        return Some(UniqueViolation);
      }
      requestSeq := requestSeq + 1;
      requests := requests + [SentRequest(requestSeq, profileURL, note, sentAt, status)];
      err := None;
    }

    /** `GetSentRequestByProfileURL`: the record of that exact URL, or
        absent (`nil, nil`). */
    method GetSentRequestByProfileURL(profileURL: string, engineFault: bool)
      returns (r: Result<Option<SentRequest>, DbError>)
      ensures engineFault ==> r == Failure(EngineFailure)
      ensures !engineFault ==> r.Success? && (r.value.None? <==> !HasRequest(requests, profileURL))
      ensures r.Success? && r.value.Some? ==>
        r.value.value in requests && r.value.value.profileURL == profileURL
      ensures r.Success? ==> r.value == FindRequest(requests, profileURL)
    {
      if engineFault {
        return Failure(EngineFailure);
      }
      r := Success(FindRequest(requests, profileURL));
    }

    /** `UpdateRequestStatus`: sets the status of the record with that URL;
        an unknown URL matches no row and is not an error. */
    method UpdateRequestStatus(profileURL: string, status: RequestStatus, engineFault: bool)
      returns (err: Option<DbError>)
      requires Valid()
      modifies this
      ensures Valid()
      ensures engineFault ==> err == Some(EngineFailure) && unchanged(this)
      ensures !engineFault ==>
        && err == None
        && requests == WithStatus(old(requests), profileURL, status)
        && messages == old(messages) && requestSeq == old(requestSeq) && messageSeq == old(messageSeq)
    {
      if engineFault {
        return Some(EngineFailure);
      }
      var updated := WithStatus(requests, profileURL, status);
      assert forall i :: 0 <= i < |requests| ==>
        updated[i].profileURL == requests[i].profileURL && updated[i].id == requests[i].id;
      requests := updated;
      err := None;
    }

    /** `GetCountOfSentRequestsToday`: the rows sent in the local day of
        `clock`. */
    method GetCountOfSentRequestsToday(clock: Clock, engineFault: bool) returns (r: Result<nat, DbError>)
      ensures engineFault ==> r == Failure(EngineFailure)
      ensures !engineFault ==>
        r == Success(|WindowRows(requests, clock.todayStart, clock.tomorrowStart)|)
      ensures r.Success? ==> r.value <= |requests|
      ensures r.Success? ==> r.value == CountInWindow(requests, clock.todayStart, clock.tomorrowStart)
    {
      if engineFault {
        return Failure(EngineFailure);
      }
      CountIsWindowSize(requests, clock.todayStart, clock.tomorrowStart);
      r := Success(CountInWindow(requests, clock.todayStart, clock.tomorrowStart));
    }

    /** `SaveMessageRecord`: INSERT, where a row equal in (profile, message,
        time) to an existing one is ignored without error. */
    method SaveMessageRecord(profileURL: string, message: string, sentAt: int, templateUsed: string, engineFault: bool)
      returns (err: Option<DbError>)
      requires Valid()
      modifies this
      ensures Valid()
      ensures engineFault ==> err == Some(EngineFailure) && unchanged(this)
      ensures !engineFault ==> err == None
      ensures !engineFault && HasMessageKey(old(messages), profileURL, message, sentAt) ==> unchanged(this)
      ensures !engineFault && !HasMessageKey(old(messages), profileURL, message, sentAt) ==>
        && messageSeq == old(messageSeq) + 1
        && messages == old(messages) + [MessageRecord(messageSeq, profileURL, message, sentAt, templateUsed)]
        && requests == old(requests) && requestSeq == old(requestSeq)
    {
      if engineFault {
        return Some(EngineFailure);
      }
      err := None;
      if HasMessageKey(messages, profileURL, message, sentAt) {
        return;
      }
      messageSeq := messageSeq + 1;
      messages := messages + [MessageRecord(messageSeq, profileURL, message, sentAt, templateUsed)];
    }

    /** `GetMessageRecord`: the latest message record of a profile, or
        absent. */
    method GetMessageRecord(profileURL: string, engineFault: bool)
      returns (r: Result<Option<MessageRecord>, DbError>)
      ensures engineFault ==> r == Failure(EngineFailure)
      ensures !engineFault ==> r.Success? && (r.value.None? <==> !HasMessage(messages, profileURL))
      ensures r.Success? && r.value.Some? ==>
        && r.value.value in messages && r.value.value.profileURL == profileURL
        && forall i :: 0 <= i < |messages| && messages[i].profileURL == profileURL ==>
             messages[i].sentAt <= r.value.value.sentAt
      ensures r.Success? ==> r.value == LatestMessage(messages, profileURL)
    {
      if engineFault {
        return Failure(EngineFailure);
      }
      r := Success(LatestMessage(messages, profileURL));
    }

    /** `GetProfileURLsWithPendingRequests`: the rows are scanned one by one
        and each URL appended. */
    method GetProfileURLsWithPendingRequests(engineFault: bool) returns (r: Result<seq<string>, DbError>)
      ensures engineFault ==> r == Failure(EngineFailure)
      ensures !engineFault ==> r == Success(URLsWithStatus(requests, Pending))
      ensures r.Success? ==> forall u :: u in r.value <==>
        exists i :: 0 <= i < |requests| && requests[i].status == Pending && requests[i].profileURL == u
    {
      if engineFault {
        return Failure(EngineFailure);
      }
      var profileURLs: seq<string> := [];
      var i := 0;
      while i < |requests|
        invariant 0 <= i <= |requests|
        invariant profileURLs == URLsWithStatus(requests[..i], Pending)
      {
        assert requests[..i + 1][..i] == requests[..i];
        if requests[i].status == Pending {
          profileURLs := profileURLs + [requests[i].profileURL];
        }
        i := i + 1;
      }
      assert requests[..i] == requests;
      r := Success(profileURLs);
    }

    /** `GetProfilesWithAcceptedRequestsWithoutMessage`: the left anti-join,
        scanned row by row. */
    method GetProfilesWithAcceptedRequestsWithoutMessage(engineFault: bool)
      returns (r: Result<seq<string>, DbError>)
      ensures engineFault ==> r == Failure(EngineFailure)
      ensures !engineFault ==> r == Success(AcceptedWithoutMessage(requests, messages))
      ensures r.Success? ==> forall u :: u in r.value <==>
        (exists i :: 0 <= i < |requests| && requests[i].status == Accepted && requests[i].profileURL == u)
        && !HasMessage(messages, u)
    {
      if engineFault {
        return Failure(EngineFailure);
      }
      var profileURLs: seq<string> := [];
      var i := 0;
      while i < |requests|
        invariant 0 <= i <= |requests|
        invariant profileURLs == AcceptedWithoutMessage(requests[..i], messages)
      {
        assert requests[..i + 1][..i] == requests[..i];
        if requests[i].status == Accepted && !HasMessage(messages, requests[i].profileURL) {
          profileURLs := profileURLs + [requests[i].profileURL];
        }
        i := i + 1;
      }
      assert requests[..i] == requests;
      r := Success(profileURLs);
    }
  }
}
