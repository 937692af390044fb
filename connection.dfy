/** The connection gate of connection/connection.go: dedup against the
    ledger, the daily quota, the note cap on the "Add a note" path, and a
    single ledger write after every platform step has succeeded. */
module Connection {
  import opened Wrappers
  import opened Storage

  /** `NewConnectionRequester`'s default daily limit. */
  const DefaultDailyLimit: int := 100

  /** The longest note, in bytes, typed into the invitation. */
  const NoteLimit: nat := 300

  /** What the profile page offers, as each selector finds it. */
  datatype ProfilePage = ProfilePage(
    inviteButton: bool,   // button[aria-label^="Invite"]
    connectButton: bool,  // button[data-control-name="connect"], the fallback
    addNoteButton: bool,  // the "Add a note" button of the invitation modal
    noteTextArea: bool,   // textarea#custom-message
    sendNowButton: bool)  // button[aria-label="Send now"]

  /** Which ledger statements the database engine fails in this call. */
  datatype LedgerFaults = LedgerFaults(lookup: bool, count: bool, save: bool)

  /** The error a call returns. `Panic` stands for a `MustElement` that finds
      nothing: rod panics, and no code after it runs. */
  datatype ConnectError =
    | BrowserNotLaunched
    | LookupFailed(cause: DbError)
    | CountFailed(cause: DbError)
    | DailyLimitReached(limit: int, sentToday: nat)
    | ConnectButtonNotFound
    | Panic(selector: string)
    | SaveFailed(cause: DbError)

  /** `note[:300]` when the note is longer than 300 bytes. */
  function TruncateNote(note: string): (r: string)
    ensures |r| <= NoteLimit
    ensures r <= note
    ensures |note| <= NoteLimit ==> r == note
    ensures |note| > NoteLimit ==> |r| == NoteLimit
  {
    if |note| > NoteLimit then note[..NoteLimit] else note
  }

  /** Every selector the send path needs is found. */
  predicate PlatformSucceeds(profile: ProfilePage) {
    && (profile.inviteButton || profile.connectButton)
    && (profile.addNoteButton ==> profile.noteTextArea)
    && profile.sendNowButton
  }

  /** `ConnectionRequester`. `browserLaunched` stands for a non-nil `Browser`;
      `page` is the profile URL that `Page` was last opened on. */
  class ConnectionRequester {
    var browserLaunched: bool
    var page: Option<string>
    var store: Storage
    var dailyLimit: int

    /** `NewConnectionRequester`. */
    constructor (browserLaunched: bool, store: Storage)
      ensures this.browserLaunched == browserLaunched && this.store == store
      ensures page == None && dailyLimit == DefaultDailyLimit
    {
      this.browserLaunched := browserLaunched;
      this.store := store;
      page := None;
      dailyLimit := DefaultDailyLimit;
    }

    /** Requests sent in the local day of `clock`, as the ledger counts them. */
    ghost function SentToday(clock: Clock): nat
      reads this, store
    {
      CountInWindow(store.requests, clock.todayStart, clock.tomorrowStart)
    }

    /** The gate lets the call reach the profile page: a browser, no ledger
        error, no record for the URL yet, and the quota not used up. */
    ghost predicate Proceeds(profileURL: string, clock: Clock, faults: LedgerFaults)
      reads this, store
    {
      && browserLaunched
      && !faults.lookup && !HasRequest(store.requests, profileURL)
      && !faults.count && SentToday(clock) < dailyLimit
    }

    /** The checks `SendConnectionRequest` makes before it opens the page:
        the browser, the ledger lookup for the URL, and today's count
        against the limit. `proceed` is false when the call stops there,
        with `err` its result. */
    method CheckGate(profileURL: string, clock: Clock, faults: LedgerFaults)
      returns (proceed: bool, err: Option<ConnectError>)
      ensures proceed <==> Proceeds(profileURL, clock, faults)
      ensures proceed ==> err == None
      ensures !browserLaunched ==> err == Some(BrowserNotLaunched)
      ensures browserLaunched && faults.lookup ==> err == Some(LookupFailed(EngineFailure))
      ensures browserLaunched && !faults.lookup && HasRequest(store.requests, profileURL) ==> err == None
      ensures browserLaunched && !faults.lookup && !HasRequest(store.requests, profileURL) && faults.count ==>
        err == Some(CountFailed(EngineFailure))
      ensures browserLaunched && !faults.lookup && !HasRequest(store.requests, profileURL) && !faults.count
              && SentToday(clock) >= dailyLimit ==>
        err == Some(DailyLimitReached(dailyLimit, SentToday(clock)))
    {
      if !browserLaunched {
        return false, Some(BrowserNotLaunched);
      }

      var existing := store.GetSentRequestByProfileURL(profileURL, faults.lookup);
      if existing.Failure? {
        return false, Some(LookupFailed(existing.error));
      }
      if existing.value.Some? {
        return false, None;
      }

      var requestsToday := store.GetCountOfSentRequestsToday(clock, faults.count);
      if requestsToday.Failure? {
        return false, Some(CountFailed(requestsToday.error));
      }
      if requestsToday.value >= dailyLimit {
        return false, Some(DailyLimitReached(dailyLimit, requestsToday.value));
      }
      proceed, err := true, None;
    }

    /** The platform steps of `SendConnectionRequest` once the page is
        open: the connect button, the optional note, "Send now", and the
        ledger write that records the request as `sent` at `now`. */
    method SendInvitation(profileURL: string, note: string, now: int, profile: ProfilePage, saveFault: bool)
      returns (err: Option<ConnectError>)
      requires store.Valid() && !HasRequest(store.requests, profileURL)
      modifies store
      ensures store.Valid()
      ensures !(PlatformSucceeds(profile) && !saveFault) ==> unchanged(store)
      ensures !(profile.inviteButton || profile.connectButton) ==> err == Some(ConnectButtonNotFound)
      ensures (profile.inviteButton || profile.connectButton) && profile.addNoteButton && !profile.noteTextArea ==>
        err == Some(Panic("textarea#custom-message"))
      ensures (profile.inviteButton || profile.connectButton) && (profile.addNoteButton ==> profile.noteTextArea)
              && !profile.sendNowButton ==>
        err == Some(Panic("button[aria-label=\"Send now\"]"))
      ensures PlatformSucceeds(profile) && saveFault ==> err == Some(SaveFailed(EngineFailure))
      ensures PlatformSucceeds(profile) && !saveFault ==>
        && err == None
        && store.requestSeq == old(store.requestSeq) + 1
        && store.requests == old(store.requests) + [SentRequest(store.requestSeq, profileURL,
             if profile.addNoteButton then TruncateNote(note) else note, now, Sent)]
        && store.messages == old(store.messages) && store.messageSeq == old(store.messageSeq)
    {
      if !profile.inviteButton && !profile.connectButton {
        return Some(ConnectButtonNotFound);
      }

      var sentNote := note;
      if profile.addNoteButton {
        if !profile.noteTextArea {
          return Some(Panic("textarea#custom-message"));
        }
        if |sentNote| > NoteLimit {
          sentNote := sentNote[..NoteLimit];
        }
        if !profile.sendNowButton {
          return Some(Panic("button[aria-label=\"Send now\"]"));
        }
      } else {
        if !profile.sendNowButton {
          return Some(Panic("button[aria-label=\"Send now\"]"));
        }
      }

      var saveErr := store.SaveSentRequest(profileURL, sentNote, now, Sent, saveFault);
      if saveErr.Some? {
        return Some(SaveFailed(saveErr.value));
      }
      err := None;
    }

    /** `SendConnectionRequest`. `clock` is `time.Now()`, `profile` what the
        page's selectors find, `faults` which ledger statements fail. */
    method SendConnectionRequest(profileURL: string, note: string, clock: Clock, profile: ProfilePage,
                                 faults: LedgerFaults)
      returns (err: Option<ConnectError>)
      requires store.Valid()
      modifies this`page, store
      ensures store.Valid()
      // Stopped at the gate: no page is opened and the ledger is untouched.
      ensures !old(Proceeds(profileURL, clock, faults)) ==> page == old(page) && unchanged(store)
      // No browser: an error before any ledger access.
      ensures !browserLaunched ==> err == Some(BrowserNotLaunched)
      ensures browserLaunched && faults.lookup ==> err == Some(LookupFailed(EngineFailure))
      // Already processed: success, no platform action, no write.
      ensures browserLaunched && !faults.lookup && HasRequest(old(store.requests), profileURL) ==> err == None
      ensures browserLaunched && !faults.lookup && !HasRequest(old(store.requests), profileURL) && faults.count ==>
        err == Some(CountFailed(EngineFailure))
      // Quota used up: an error naming the limit and the count, no write.
      ensures browserLaunched && !faults.lookup && !HasRequest(old(store.requests), profileURL) && !faults.count
              && old(SentToday(clock)) >= dailyLimit ==>
        err == Some(DailyLimitReached(dailyLimit, old(SentToday(clock))))
      // Past the gate the profile page is opened.
      ensures old(Proceeds(profileURL, clock, faults)) ==> page == Some(profileURL)
      ensures old(Proceeds(profileURL, clock, faults)) && !(PlatformSucceeds(profile) && !faults.save) ==>
        unchanged(store)
      ensures old(Proceeds(profileURL, clock, faults)) && !(profile.inviteButton || profile.connectButton) ==>
        err == Some(ConnectButtonNotFound)
      ensures old(Proceeds(profileURL, clock, faults)) && (profile.inviteButton || profile.connectButton)
              && profile.addNoteButton && !profile.noteTextArea ==>
        err == Some(Panic("textarea#custom-message"))
      ensures old(Proceeds(profileURL, clock, faults)) && (profile.inviteButton || profile.connectButton)
              && (profile.addNoteButton ==> profile.noteTextArea) && !profile.sendNowButton ==>
        err == Some(Panic("button[aria-label=\"Send now\"]"))
      ensures old(Proceeds(profileURL, clock, faults)) && PlatformSucceeds(profile) && faults.save ==>
        err == Some(SaveFailed(EngineFailure))
      // Success: exactly one new record, with status `sent`, the current
      // time, and the note truncated only on the "Add a note" path.
      ensures old(Proceeds(profileURL, clock, faults)) && PlatformSucceeds(profile) && !faults.save ==>
        && err == None
        && store.requestSeq == old(store.requestSeq) + 1
        && store.requests == old(store.requests) + [SentRequest(store.requestSeq, profileURL,
             if profile.addNoteButton then TruncateNote(note) else note, clock.now, Sent)]
        && store.messages == old(store.messages) && store.messageSeq == old(store.messageSeq)
      // The ledger is written only when the gate and every platform step
      // passed, and then by one record.
      ensures store.requests != old(store.requests) <==>
        old(Proceeds(profileURL, clock, faults)) && PlatformSucceeds(profile) && !faults.save
      // The call never takes today's count past the limit.
      ensures SentToday(clock) <= if old(SentToday(clock)) < dailyLimit then dailyLimit else old(SentToday(clock))
    {
      var proceed;
      proceed, err := CheckGate(profileURL, clock, faults);
      if !proceed {
        return err;
      }
      page := Some(profileURL);
      ghost var before := store.requests;
      err := SendInvitation(profileURL, note, clock.now, profile, faults.save);
      if err.None? {
        AppendCount(before, store.requests[|before|], clock.todayStart, clock.tomorrowStart);
      }
    }
  }
}
