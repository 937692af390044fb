/** Call sequences of the connection gate and the follow-up queue over a
    fresh ledger, each stated by what it returns. */
module Scenarios {
  import opened Wrappers
  import opened Storage
  import Connection
  import Messaging

  /** A page on which every selector of the connect path is found. */
  const FullProfile: Connection.ProfilePage := Connection.ProfilePage(true, false, true, true, true)

  const NoLedgerFaults: Connection.LedgerFaults := Connection.LedgerFaults(false, false, false)

  /** A moment inside the day that starts at 0. */
  const Noon: Clock := Clock(43200, 0, 86400)

  /** A requester with a daily limit of two over a fresh ledger, after
      its first request. */
  method FirstRequest() returns (requester: Connection.ConnectionRequester, first: Option<Connection.ConnectError>)
    ensures fresh(requester) && fresh(requester.store)
    ensures requester.browserLaunched && requester.dailyLimit == 2 && requester.store.Valid()
    ensures requester.store.requests == [SentRequest(1, "https://x/in/a", "hi", 43200, Sent)]
    ensures requester.store.requestSeq == 1
    ensures first == None
  {
    var store := new Storage();
    requester := new Connection.ConnectionRequester(true, store);
    requester.dailyLimit := 2;
    assert requester.Proceeds("https://x/in/a", Noon, NoLedgerFaults);
    assert Connection.PlatformSucceeds(FullProfile) && !NoLedgerFaults.save;
    first := requester.SendConnectionRequest("https://x/in/a", "hi", Noon, FullProfile, NoLedgerFaults);
  }

  /** The first two requests of `QuotaScenario`, each sent and recorded. */
  method FillQuota() returns (requester: Connection.ConnectionRequester,
                              first: Option<Connection.ConnectError>, second: Option<Connection.ConnectError>)
    ensures fresh(requester) && fresh(requester.store)
    ensures requester.browserLaunched && requester.dailyLimit == 2 && requester.store.Valid()
    ensures requester.store.requests == [SentRequest(1, "https://x/in/a", "hi", 43200, Sent),
                                         SentRequest(2, "https://x/in/b", "hi", 43200, Sent)]
    ensures first == None && second == None
  {
    requester, first := FirstRequest();
    var a := SentRequest(1, "https://x/in/a", "hi", 43200, Sent);
    assert !HasRequest([a], "https://x/in/b");
    assert CountInWindow([a], 0, 86400) == 1 by { assert [a][..0] == []; }
    assert requester.Proceeds("https://x/in/b", Noon, NoLedgerFaults);
    assert Connection.PlatformSucceeds(FullProfile) && !NoLedgerFaults.save;
    second := requester.SendConnectionRequest("https://x/in/b", "hi", Noon, FullProfile, NoLedgerFaults);
  }

  /** With a daily limit of two, two requests go out, the third is refused
      with the limit and today's count, and the ledger counts two. */
  method QuotaScenario() returns (first: Option<Connection.ConnectError>, second: Option<Connection.ConnectError>,
                                   third: Option<Connection.ConnectError>, count: Result<nat, DbError>)
    ensures first == None && second == None
    ensures third == Some(Connection.DailyLimitReached(2, 2))
    ensures count == Success(2)
  {
    var requester;
    requester, first, second := FillQuota();
    var store := requester.store;
    var a := SentRequest(1, "https://x/in/a", "hi", 43200, Sent);
    var b := SentRequest(2, "https://x/in/b", "hi", 43200, Sent);
    assert !HasRequest([a, b], "https://x/in/c");
    assert CountInWindow([a, b], 0, 86400) == 2 by {
      assert [a, b][..1] == [a];
      assert [a][..0] == [];
    }
    third := requester.SendConnectionRequest("https://x/in/c", "hi", Noon, FullProfile, NoLedgerFaults);
    assert store.requests == [a, b];
    count := store.GetCountOfSentRequestsToday(Noon, false);
  }

  /** A second request to the same profile succeeds without any platform
      action, and the ledger keeps the first note. */
  method DedupScenario() returns (second: Option<Connection.ConnectError>, stored: Result<Option<SentRequest>, DbError>)
    ensures second == None
    ensures stored.Success? && stored.value.Some?
    ensures stored.value.value.note == "hi" && stored.value.value.status == Sent
  {
    var store := new Storage();
    var requester := new Connection.ConnectionRequester(true, store);
    var first := requester.SendConnectionRequest("https://x/in/a", "hi", Noon, FullProfile, NoLedgerFaults);
    second := requester.SendConnectionRequest("https://x/in/a", "bye", Noon, FullProfile, NoLedgerFaults);
    stored := store.GetSentRequestByProfileURL("https://x/in/a", false);
  }

  /** An accepted profile is queued for a follow-up until a message is
      saved for it. */
  method FollowUpScenario() returns (before: Result<seq<string>, Messaging.MessageError>,
                                      sent: Option<Messaging.MessageError>,
                                      after: Result<seq<string>, Messaging.MessageError>)
    ensures before == Success(["https://x/in/a"])
    ensures sent == None
    ensures after == Success([])
  {
    var store := new Storage();
    var saved := store.SaveSentRequest("https://x/in/a", "hi", 0, Sent, false);
    var updated := store.UpdateRequestStatus("https://x/in/a", Accepted, false);
    var a := SentRequest(1, "https://x/in/a", "hi", 0, Accepted);
    assert store.requests == [a] && store.messages == [];
    assert AcceptedWithoutMessage([a], []) == ["https://x/in/a"] by { assert [a][..0] == []; }
    var messenger := new Messaging.Messenger(true, store);
    before := messenger.DetectNewConnections(false);

    var variables := map["name" := "Ada"];
    assert Messaging.IsIterationOrder(["name"], variables);
    assert messenger.Proceeds("https://x/in/a", Messaging.MessageFaults(false, false));
    sent := messenger.SendFollowUpMessage("https://x/in/a", "Thanks, {{name}}!", variables, ["name"], 100,
                                          Messaging.MessagePage(true, false, true, false, true),
                                          Messaging.MessageFaults(false, false));
    assert store.requests == [a] && |store.messages| == 1 && store.messages[0].profileURL == "https://x/in/a";
    assert HasMessage(store.messages, "https://x/in/a");
    assert AcceptedWithoutMessage([a], store.messages) == [] by { assert [a][..0] == []; }
    after := messenger.DetectNewConnections(false);
  }
}
