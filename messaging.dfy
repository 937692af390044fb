/** The follow-up gate of messaging/messaging.go: template substitution,
    at most one follow-up per profile as the ledger sees it, and a single
    message record written after every platform step has succeeded. */
module Messaging {
  import opened Wrappers
  import opened Storage

  // ---------------------------------------------------------------------
  // Template substitution
  // ---------------------------------------------------------------------

  /** `strings.ReplaceAll(s, pat, rep)`: every non-overlapping occurrence of
      `pat`, leftmost first, replaced by `rep`. For an empty `pat` this
      inserts `rep` before every element and at the end; Go inserts it at
      rune boundaries instead, which differs on multi-byte characters.
      `applyTemplate` never passes an empty pattern: a placeholder is at
      least four bytes long. */
  function ReplaceAll(s: string, pat: string, rep: string): (r: string)
    // A replacement as long as the pattern keeps the length.
    ensures |pat| > 0 && |rep| == |pat| ==> |r| == |s|
    // A replacement no longer than the pattern never lengthens the text.
    ensures |pat| > 0 && |rep| <= |pat| ==> |r| <= |s|
    decreases |s|
  {
    if |pat| == 0 then
      if s == [] then rep else rep + [s[0]] + ReplaceAll(s[1..], pat, rep)
    else if |s| < |pat| then s
    else if s[..|pat|] == pat then rep + ReplaceAll(s[|pat|..], pat, rep)
    else [s[0]] + ReplaceAll(s[1..], pat, rep)
  }

  /** `pat` occurs in `s` at index `i`. */
  predicate OccursAt(pat: string, s: string, i: nat) {
    i + |pat| <= |s| && s[i..i + |pat|] == pat
  }

  /** `pat` occurs somewhere in `s`. */
  ghost predicate Occurs(pat: string, s: string) {
    exists i: nat :: OccursAt(pat, s, i)
  }

  /** With no occurrence of a non-empty pattern, the replacement is the
      identity. */
  lemma {:induction false} ReplaceAllAbsent(s: string, pat: string, rep: string)
    requires |pat| > 0 && !Occurs(pat, s)
    ensures ReplaceAll(s, pat, rep) == s
  {
    if |s| >= |pat| {
      assert s[0..0 + |pat|] == s[..|pat|];
      assert !OccursAt(pat, s, 0);
      assert !Occurs(pat, s[1..]) by {
        forall i: nat | i + |pat| <= |s[1..]|
          ensures !OccursAt(pat, s[1..], i)
        {
          assert s[1..][i..i + |pat|] == s[i + 1..i + 1 + |pat|];
          assert !OccursAt(pat, s, i + 1);
        }
      }
      ReplaceAllAbsent(s[1..], pat, rep);
    }
  }

  /** Replacing a pattern by itself changes nothing (Go returns `s` at once
      when `old == new`). */
  lemma {:induction false} ReplaceAllSelf(s: string, pat: string)
    ensures ReplaceAll(s, pat, pat) == s
    decreases |s|
  {
    if |pat| == 0 {
      if s != [] {
        ReplaceAllSelf(s[1..], pat);
        assert [s[0]] + s[1..] == s;
      }
    } else if |s| >= |pat| {
      if s[..|pat|] == pat {
        ReplaceAllSelf(s[|pat|..], pat);
        assert s[..|pat|] + s[|pat|..] == s;
      } else {
        ReplaceAllSelf(s[1..], pat);
        assert [s[0]] + s[1..] == s;
      }
    }
  }

  /** The placeholder `{{key}}`. */
  function Placeholder(key: string): (p: string)
    ensures |p| == |key| + 4
  {
    "{{" + key + "}}"
  }

  /** A Go map's iteration order: every key once. */
  ghost predicate IsIterationOrder(order: seq<string>, variables: map<string, string>) {
    NoDuplicates(order) && (forall k :: k in order <==> k in variables)
  }

  /** The fold of `applyTemplate`: one `ReplaceAll` per key, in the order the
      map was iterated. */
  function Substitute(template: string, variables: map<string, string>, order: seq<string>): string
    requires forall k :: k in order ==> k in variables
    decreases |order|
  {
    if order == [] then template
    else Substitute(ReplaceAll(template, Placeholder(order[0]), variables[order[0]]), variables, order[1..])
  }

  /** A template without a placeholder of any supplied key comes out as it
      went in. */
  lemma {:induction false} SubstituteNoPlaceholders(template: string, variables: map<string, string>, order: seq<string>)
    requires forall k :: k in order ==> k in variables
    requires forall k :: k in order ==> !Occurs(Placeholder(k), template)
    ensures Substitute(template, variables, order) == template
  {
    if order != [] {
      ReplaceAllAbsent(template, Placeholder(order[0]), variables[order[0]]);
      SubstituteNoPlaceholders(template, variables, order[1..]);
    }
  }

  /** Go randomises map iteration, and the result can depend on the order:
      a value that spells another key's placeholder is itself substituted
      only when that key comes later. */
  lemma IterationOrderMatters()
    ensures var vars := map["a" := "{{b}}", "b" := "x"];
            && Substitute("{{a}}", vars, ["a", "b"]) == "x"
            && Substitute("{{a}}", vars, ["b", "a"]) == "{{b}}"
  {
    var vars := map["a" := "{{b}}", "b" := "x"];
    assert Placeholder("a") == "{{a}}" && Placeholder("b") == "{{b}}";
    assert ReplaceAll("{{a}}", "{{a}}", "{{b}}") == "{{b}}" by {
      assert "{{a}}"[..5] == "{{a}}";
      assert "{{a}}"[5..] == "";
    }
    assert ReplaceAll("{{b}}", "{{b}}", "x") == "x" by {
      assert "{{b}}"[..5] == "{{b}}";
      assert "{{b}}"[5..] == "";
    }
    assert ReplaceAll("{{a}}", "{{b}}", "x") == "{{a}}" by {
      assert "{{a}}"[..5] != "{{b}}" by { assert "{{a}}"[2] != "{{b}}"[2]; }
      assert "{{a}}"[1..] == "{a}}";
    }
    assert ["a", "b"][1..] == ["b"];
    assert ["b", "a"][1..] == ["a"];
  }

  /** `applyTemplate`: `result` starts as the template and each map entry
      replaces its `{{key}}` in turn. */
  method ApplyTemplate(template: string, variables: map<string, string>, order: seq<string>)
    returns (result: string)
    requires IsIterationOrder(order, variables)
    ensures result == Substitute(template, variables, order)
    ensures variables == map[] ==> result == template
    ensures forall k, v :: variables == map[k := v] ==> result == ReplaceAll(template, Placeholder(k), v)
  {
    result := template;
    var i := 0;
    while i < |order|
      invariant 0 <= i <= |order|
      invariant Substitute(result, variables, order[i..]) == Substitute(template, variables, order)
    {
      assert order[i..][1..] == order[i + 1..];
      result := ReplaceAll(result, Placeholder(order[i]), variables[order[i]]);
      i := i + 1;
    }
    DistinctCardinality(order);
    assert Elements(order) == variables.Keys;
    forall k, v | variables == map[k := v]
      ensures result == ReplaceAll(template, Placeholder(k), v)
    {
      assert order == [k] by {
        assert |order| == 1;
        assert order[0] in Elements(order);
      }
      assert order[1..] == [];
    }
  }

  // ---------------------------------------------------------------------
  // The Messenger
  // ---------------------------------------------------------------------

  /** What the profile page offers, as each selector finds it. */
  datatype MessagePage = MessagePage(
    messageButton: bool,     // the top card's primary "Message" action
    messageButtonAlt: bool,  // a.pv-top-card-v2__message-button, the fallback
    editableInput: bool,     // div[contenteditable="true"].msg-form__contenteditable
    textAreaInput: bool,     // textarea.msg-form__textarea, the fallback
    sendButton: bool)        // button.msg-form__send-button

  /** Which ledger statements the database engine fails in this call. */
  datatype MessageFaults = MessageFaults(lookup: bool, save: bool)

  datatype MessageError =
    | BrowserNotLaunched
    | LookupFailed(cause: DbError)
    | MessageButtonNotFound
    | MessageInputNotFound
    | SendButtonNotFound
    | SaveFailed(cause: DbError)
    | DetectFailed(cause: DbError)

  /** Every selector the send path needs is found. */
  predicate PlatformSucceeds(profile: MessagePage) {
    && (profile.messageButton || profile.messageButtonAlt)
    && (profile.editableInput || profile.textAreaInput)
    && profile.sendButton
  }

  /** `Messenger`. `browserLaunched` stands for a non-nil `Browser`; `page`
      is the profile URL that `Page` was last opened on. */
  class Messenger {
    var browserLaunched: bool
    var page: Option<string>
    var store: Storage

    /** `NewMessenger`. */
    constructor (browserLaunched: bool, store: Storage)
      ensures this.browserLaunched == browserLaunched && this.store == store && page == None
    {
      this.browserLaunched := browserLaunched;
      this.store := store;
      page := None;
    }

    /** The gate lets the call reach the profile page: a browser, no ledger
        error, and no message record for the profile yet. */
    ghost predicate Proceeds(profileURL: string, faults: MessageFaults)
      reads this, store
    {
      browserLaunched && !faults.lookup && !HasMessage(store.messages, profileURL)
    }

    /** The checks `SendFollowUpMessage` makes before it opens the page: the
        browser and the ledger lookup of an earlier message. `proceed` is
        false when the call stops there, with `err` its result. */
    method CheckGate(profileURL: string, faults: MessageFaults) returns (proceed: bool, err: Option<MessageError>)
      ensures proceed <==> Proceeds(profileURL, faults)
      ensures proceed ==> err == None
      ensures !browserLaunched ==> err == Some(BrowserNotLaunched)
      ensures browserLaunched && faults.lookup ==> err == Some(LookupFailed(EngineFailure))
      ensures browserLaunched && !faults.lookup && HasMessage(store.messages, profileURL) ==> err == None
    {
      if !browserLaunched {
        return false, Some(BrowserNotLaunched);
      }

      var existing := store.GetMessageRecord(profileURL, faults.lookup);
      if existing.Failure? {
        return false, Some(LookupFailed(existing.error));
      }
      if existing.value.Some? {
        return false, None;
      }
      proceed, err := true, None;
    }

    /** The platform steps of `SendFollowUpMessage` once the page is open:
        the message button, the input, the send button, and the ledger
        write of `message` with the template it came from. */
    method SendMessage(profileURL: string, message: string, now: int, template: string, profile: MessagePage,
                       saveFault: bool)
      returns (err: Option<MessageError>)
      requires store.Valid() && !HasMessage(store.messages, profileURL)
      modifies store
      ensures store.Valid()
      ensures store.requests == old(store.requests) && store.requestSeq == old(store.requestSeq)
      ensures !(PlatformSucceeds(profile) && !saveFault) ==> unchanged(store)
      ensures !(profile.messageButton || profile.messageButtonAlt) ==> err == Some(MessageButtonNotFound)
      ensures (profile.messageButton || profile.messageButtonAlt) && !(profile.editableInput || profile.textAreaInput) ==>
        err == Some(MessageInputNotFound)
      ensures (profile.messageButton || profile.messageButtonAlt) && (profile.editableInput || profile.textAreaInput)
              && !profile.sendButton ==>
        err == Some(SendButtonNotFound)
      ensures PlatformSucceeds(profile) && saveFault ==> err == Some(SaveFailed(EngineFailure))
      ensures PlatformSucceeds(profile) && !saveFault ==>
        && err == None
        && store.messageSeq == old(store.messageSeq) + 1
        && store.messages == old(store.messages) + [MessageRecord(store.messageSeq, profileURL, message, now, template)]
    {
      if !profile.messageButton && !profile.messageButtonAlt {
        return Some(MessageButtonNotFound);
      }
      if !profile.editableInput && !profile.textAreaInput {
        return Some(MessageInputNotFound);
      }
      if !profile.sendButton {
        return Some(SendButtonNotFound);
      }

      var saveErr := store.SaveMessageRecord(profileURL, message, now, template, saveFault);
      if saveErr.Some? {
        return Some(SaveFailed(saveErr.value));
      }
      err := None;
    }

    /** `SendFollowUpMessage`. `order` is the order in which the runtime
        iterates `variables`, `now` is `time.Now()`, `profile` what the
        page's selectors find, `faults` which ledger statements fail. */
    method SendFollowUpMessage(profileURL: string, template: string, variables: map<string, string>,
                               order: seq<string>, now: int, profile: MessagePage, faults: MessageFaults)
      returns (err: Option<MessageError>)
      requires store.Valid()
      requires IsIterationOrder(order, variables)
      modifies this`page, store
      ensures store.Valid()
      ensures store.requests == old(store.requests) && store.requestSeq == old(store.requestSeq)
      ensures !browserLaunched ==>
        err == Some(BrowserNotLaunched) && page == old(page) && unchanged(store)
      ensures browserLaunched && faults.lookup ==>
        err == Some(LookupFailed(EngineFailure)) && page == old(page) && unchanged(store)
      // Any earlier message: success, no platform action, no new record.
      ensures browserLaunched && !faults.lookup && HasMessage(old(store.messages), profileURL) ==>
        err == None && page == old(page) && unchanged(store)
      ensures old(Proceeds(profileURL, faults)) ==> page == Some(profileURL)
      ensures old(Proceeds(profileURL, faults)) && !(profile.messageButton || profile.messageButtonAlt) ==>
        err == Some(MessageButtonNotFound) && unchanged(store)
      ensures old(Proceeds(profileURL, faults)) && (profile.messageButton || profile.messageButtonAlt)
              && !(profile.editableInput || profile.textAreaInput) ==>
        err == Some(MessageInputNotFound) && unchanged(store)
      ensures old(Proceeds(profileURL, faults)) && (profile.messageButton || profile.messageButtonAlt)
              && (profile.editableInput || profile.textAreaInput) && !profile.sendButton ==>
        err == Some(SendButtonNotFound) && unchanged(store)
      ensures old(Proceeds(profileURL, faults)) && PlatformSucceeds(profile) && faults.save ==>
        err == Some(SaveFailed(EngineFailure)) && unchanged(store)
      // Success: exactly one record, the substituted text and the template.
      ensures old(Proceeds(profileURL, faults)) && PlatformSucceeds(profile) && !faults.save ==>
        && err == None
        && store.messageSeq == old(store.messageSeq) + 1
        && store.messages == old(store.messages) + [MessageRecord(store.messageSeq, profileURL,
             Substitute(template, variables, order), now, template)]
      ensures store.messages != old(store.messages) <==>
        old(Proceeds(profileURL, faults)) && PlatformSucceeds(profile) && !faults.save
    {
      var proceed;
      proceed, err := CheckGate(profileURL, faults);
      if !proceed {
        return err;
      }

      var message := ApplyTemplate(template, variables, order);

      page := Some(profileURL);
      err := SendMessage(profileURL, message, now, template, profile, faults.save);
    }

    /** `DetectNewConnections`: the ledger's accepted-without-message queue,
        or its error. */
    method DetectNewConnections(engineFault: bool) returns (r: Result<seq<string>, MessageError>)
      requires store.Valid()
      ensures engineFault ==> r == Failure(DetectFailed(EngineFailure))
      ensures !engineFault ==> r == Success(AcceptedWithoutMessage(store.requests, store.messages))
      ensures r.Success? ==> NoDuplicates(r.value)
      ensures r.Success? ==> forall u :: u in r.value <==>
        (exists i :: 0 <= i < |store.requests| && store.requests[i].status == Accepted
                     && store.requests[i].profileURL == u)
        && !HasMessage(store.messages, u)
    {
      var profiles := store.GetProfilesWithAcceptedRequestsWithoutMessage(engineFault);
      if profiles.Failure? {
        return Failure(DetectFailed(profiles.error));
      }
      AcceptedWithoutMessageDistinct(store.requests, store.messages);
      r := Success(profiles.value);
    }
  }
}
