/** Notification fan-out: one delivery attempt per (channel, recipient) pair,
    channel-major; only the email channel goes over the network. */
module Notifications {
  import opened Wrappers
  import opened Http
  import Config

  datatype NotificationRequest = NotificationRequest(
    channels: seq<string>,
    recipients: seq<string>,
    template: string,
    data: map<string, Json>,
    priority: string)

  datatype DeliveryStatus = Sent | Failed

  /** One entry of the send response; `error` is the exception that failed the pair. */
  datatype DeliveryResult = DeliveryResult(
    channel: string,
    recipient: string,
    status: DeliveryStatus,
    error: Option<Fault>)

  /** The email-service POST for one recipient. */
  function EmailRequest(s: Config.Settings, tenant: string, req: NotificationRequest, recipient: string): Request {
    Post(s.emailServiceUrl + "/send",
         map["fiware-service" := tenant],
         JObj(map["to" := JStr(recipient),
                  "template" := JStr(req.template),
                  "data" := JObj(req.data),
                  "priority" := JStr(req.priority)]))
  }

  /** One pair: email is POSTed and fails on any exception; every other channel is
      reported sent without any request. */
  function Dispatch(s: Config.Settings, tenant: string, req: NotificationRequest, send: Request -> Outcome,
                    channel: string, recipient: string): (r: (DeliveryResult, seq<Request>))
    ensures r.0.channel == channel && r.0.recipient == recipient
    ensures r.0.status == Failed <==> r.0.error.Some?
    ensures channel != "email" ==> r.0.status == Sent && r.1 == []
    ensures channel == "email" ==> r.1 == [EmailRequest(s, tenant, req, recipient)]
    ensures channel == "email" ==> (r.0.status == Sent <==> Passed(send(EmailRequest(s, tenant, req, recipient))))
  {
    if channel == "email" then
      var q := EmailRequest(s, tenant, req, recipient);
      match Deliver(send(q))
      case None => (DeliveryResult(channel, recipient, Sent, None), [q])
      case Some(f) => (DeliveryResult(channel, recipient, Failed, Some(f)), [q])
    else (DeliveryResult(channel, recipient, Sent, None), [])
  }

  /** All recipients of one channel, in recipient order. */
  function Row(s: Config.Settings, tenant: string, req: NotificationRequest, send: Request -> Outcome,
               channel: string, rs: seq<string>): (r: (seq<DeliveryResult>, seq<Request>))
    ensures |r.0| == |rs|
    ensures forall j :: 0 <= j < |rs| ==> r.0[j] == Dispatch(s, tenant, req, send, channel, rs[j]).0
    ensures forall q :: q in r.1 ==> q.url == s.emailServiceUrl + "/send"
  {
    if |rs| == 0 then ([], [])
    else
      var prev := Row(s, tenant, req, send, channel, rs[..|rs| - 1]);
      var last := Dispatch(s, tenant, req, send, channel, rs[|rs| - 1]);
      (prev.0 + [last.0], prev.1 + last.1)
  }

  /** Reference definition of the whole fan-out: the rows of the channels, in order. */
  function FanOut(s: Config.Settings, tenant: string, req: NotificationRequest, send: Request -> Outcome,
                  cs: seq<string>, rs: seq<string>): (r: (seq<DeliveryResult>, seq<Request>))
    ensures |cs| == 0 || |rs| == 0 ==> r == ([], [])
    ensures forall q :: q in r.1 ==> q.url == s.emailServiceUrl + "/send"
  {
    if |cs| == 0 then ([], [])
    else
      var prev := FanOut(s, tenant, req, send, cs[..|cs| - 1], rs);
      var row := Row(s, tenant, req, send, cs[|cs| - 1], rs);
      (prev.0 + row.0, prev.1 + row.1)
  }

  /** Every fan-out result echoes one of the channels and recipients, is "sent" or
      "failed" with an error exactly when failed, and every request made is a
      POST to the email service. */
  lemma {:induction false} FanOutShape(s: Config.Settings, tenant: string, req: NotificationRequest, send: Request -> Outcome,
                                       cs: seq<string>, rs: seq<string>)
    decreases |cs|
    ensures forall k :: 0 <= k < |FanOut(s, tenant, req, send, cs, rs).0| ==>
      (FanOut(s, tenant, req, send, cs, rs).0[k].status == Failed <==> FanOut(s, tenant, req, send, cs, rs).0[k].error.Some?)
    ensures forall k :: 0 <= k < |FanOut(s, tenant, req, send, cs, rs).0| ==>
      FanOut(s, tenant, req, send, cs, rs).0[k].channel in cs && FanOut(s, tenant, req, send, cs, rs).0[k].recipient in rs
    ensures forall q :: q in FanOut(s, tenant, req, send, cs, rs).1 ==> q.url == s.emailServiceUrl + "/send"
  {
    if |cs| > 0 {
      var init := cs[..|cs| - 1];
      FanOutShape(s, tenant, req, send, init, rs);
      var prev := FanOut(s, tenant, req, send, init, rs);
      var row := Row(s, tenant, req, send, cs[|cs| - 1], rs);
      var all := FanOut(s, tenant, req, send, cs, rs);
      assert all.0 == prev.0 + row.0;
      assert all.1 == prev.1 + row.1;
      forall k | 0 <= k < |all.0|
        ensures all.0[k].status == Failed <==> all.0[k].error.Some?
        ensures all.0[k].channel in cs && all.0[k].recipient in rs
      {
        if k < |prev.0| {
          assert all.0[k] == prev.0[k];
          assert prev.0[k].channel in init;
        } else {
          var j := k - |prev.0|;
          assert all.0[k] == row.0[j];
          assert row.0[j] == Dispatch(s, tenant, req, send, cs[|cs| - 1], rs[j]).0;
        }
      }
    }
  }

  lemma MulStep(i: nat, n: nat, w: nat)
    requires i < n
    ensures i * w + w <= n * w
  {
    var d := n - (i + 1);
    assert n * w == (i + 1) * w + d * w;
  }

  lemma MulSucc(n: nat, w: nat)
    requires n > 0
    ensures (n - 1) * w + w == n * w
  {
  }

  lemma {:induction false} FanOutLength(s: Config.Settings, tenant: string, req: NotificationRequest, send: Request -> Outcome,
                                        cs: seq<string>, rs: seq<string>)
    ensures |FanOut(s, tenant, req, send, cs, rs).0| == |cs| * |rs|
  {
    if |cs| > 0 {
      FanOutLength(s, tenant, req, send, cs[..|cs| - 1], rs);
      MulSucc(|cs|, |rs|);
    }
  }

  /** The result at position i * |rs| + j is the attempt for channel i and recipient j. */
  lemma {:induction false} FanOutAtPair(s: Config.Settings, tenant: string, req: NotificationRequest, send: Request -> Outcome,
                                        cs: seq<string>, rs: seq<string>, i: nat, j: nat)
    requires i < |cs| && j < |rs|
    ensures i * |rs| + j < |FanOut(s, tenant, req, send, cs, rs).0|
    ensures FanOut(s, tenant, req, send, cs, rs).0[i * |rs| + j] == Dispatch(s, tenant, req, send, cs[i], rs[j]).0
  {
    var n := |cs|;
    var init := cs[..n - 1];
    FanOutLength(s, tenant, req, send, init, rs);
    var prev := FanOut(s, tenant, req, send, init, rs).0;
    var row := Row(s, tenant, req, send, cs[n - 1], rs).0;
    assert FanOut(s, tenant, req, send, cs, rs).0 == prev + row;
    if i < n - 1 {
      FanOutAtPair(s, tenant, req, send, init, rs, i, j);
      assert init[i] == cs[i];
    } else {
      assert i * |rs| == |prev|;
    }
  }

  /** The fan-out is channel-major: position i * |rs| + j holds
      the attempt for channel i and recipient j. */
  lemma FanOutAt(s: Config.Settings, tenant: string, req: NotificationRequest, send: Request -> Outcome,
                 cs: seq<string>, rs: seq<string>)
    ensures forall i, j :: 0 <= i < |cs| && 0 <= j < |rs| ==>
      i * |rs| + j < |FanOut(s, tenant, req, send, cs, rs).0| &&
      FanOut(s, tenant, req, send, cs, rs).0[i * |rs| + j] == Dispatch(s, tenant, req, send, cs[i], rs[j]).0
  {
    var out := FanOut(s, tenant, req, send, cs, rs).0;
    forall i, j | 0 <= i < |cs| && 0 <= j < |rs|
      ensures i * |rs| + j < |out| && out[i * |rs| + j] == Dispatch(s, tenant, req, send, cs[i], rs[j]).0
    {
      FanOutAtPair(s, tenant, req, send, cs, rs, i, j);
    }
  }

  lemma FanOutSnoc(s: Config.Settings, tenant: string, req: NotificationRequest, send: Request -> Outcome,
                   cs: seq<string>, rs: seq<string>, i: nat)
    requires i < |cs|
    ensures FanOut(s, tenant, req, send, cs[..i + 1], rs).0 == FanOut(s, tenant, req, send, cs[..i], rs).0 + Row(s, tenant, req, send, cs[i], rs).0
    ensures FanOut(s, tenant, req, send, cs[..i + 1], rs).1 == FanOut(s, tenant, req, send, cs[..i], rs).1 + Row(s, tenant, req, send, cs[i], rs).1
  {
    assert cs[..i + 1][..i] == cs[..i];
  }

  lemma RowSnoc(s: Config.Settings, tenant: string, req: NotificationRequest, send: Request -> Outcome,
                c: string, rs: seq<string>, j: nat)
    requires j < |rs|
    ensures Row(s, tenant, req, send, c, rs[..j + 1]).0 == Row(s, tenant, req, send, c, rs[..j]).0 + [Dispatch(s, tenant, req, send, c, rs[j]).0]
    ensures Row(s, tenant, req, send, c, rs[..j + 1]).1 == Row(s, tenant, req, send, c, rs[..j]).1 + Dispatch(s, tenant, req, send, c, rs[j]).1
  {
    assert rs[..j + 1][..j] == rs[..j];
  }

  /** One channel's recipients, in order. */
  method SendRow(s: Config.Settings, tenant: string, req: NotificationRequest, send: Request -> Outcome,
                 channel: string, rs: seq<string>)
    returns (results: seq<DeliveryResult>, sent: seq<Request>)
    ensures results == Row(s, tenant, req, send, channel, rs).0
    ensures sent == Row(s, tenant, req, send, channel, rs).1
  {
    results, sent := [], [];
    var j := 0;
    while j < |rs|
      invariant 0 <= j <= |rs|
      invariant results == Row(s, tenant, req, send, channel, rs[..j]).0
      invariant sent == Row(s, tenant, req, send, channel, rs[..j]).1
    {
      var attempt := Dispatch(s, tenant, req, send, channel, rs[j]);
      RowSnoc(s, tenant, req, send, channel, rs, j);
      results := results + [attempt.0];
      sent := sent + attempt.1;
      j := j + 1;
    }
    assert rs[..j] == rs;
  }

  /** `POST /notifications/send`: one result per (channel, recipient), channel-major
      (see FanOutAt for the position of each pair). */
  method SendNotification(s: Config.Settings, tenant: string, req: NotificationRequest, send: Request -> Outcome)
    returns (results: seq<DeliveryResult>, sent: seq<Request>)
    ensures results == FanOut(s, tenant, req, send, req.channels, req.recipients).0
    ensures sent == FanOut(s, tenant, req, send, req.channels, req.recipients).1
    ensures |results| == |req.channels| * |req.recipients|
  {
    var cs, rs := req.channels, req.recipients;
    results, sent := [], [];
    var i := 0;
    while i < |cs|
      invariant 0 <= i <= |cs|
      invariant results == FanOut(s, tenant, req, send, cs[..i], rs).0
      invariant sent == FanOut(s, tenant, req, send, cs[..i], rs).1
    {
      var row, rowSent := SendRow(s, tenant, req, send, cs[i], rs);
      FanOutSnoc(s, tenant, req, send, cs, rs, i);
      results := results + row;
      sent := sent + rowSent;
      i := i + 1;
    }
    assert cs[..i] == cs;
    FanOutLength(s, tenant, req, send, cs, rs);
  }

  /** A pair's result depends only on the network's answer to that pair's own request:
      what happens to every other pair cannot change it. */
  lemma PairIsolation(s: Config.Settings, tenant: string, req: NotificationRequest,
                      send1: Request -> Outcome, send2: Request -> Outcome, i: nat, j: nat)
    requires i < |req.channels| && j < |req.recipients|
    requires send1(EmailRequest(s, tenant, req, req.recipients[j])) == send2(EmailRequest(s, tenant, req, req.recipients[j]))
    ensures i * |req.recipients| + j < |FanOut(s, tenant, req, send1, req.channels, req.recipients).0|
    ensures i * |req.recipients| + j < |FanOut(s, tenant, req, send2, req.channels, req.recipients).0|
    ensures FanOut(s, tenant, req, send1, req.channels, req.recipients).0[i * |req.recipients| + j]
         == FanOut(s, tenant, req, send2, req.channels, req.recipients).0[i * |req.recipients| + j]
  {
    FanOutAtPair(s, tenant, req, send1, req.channels, req.recipients, i, j);
    FanOutAtPair(s, tenant, req, send2, req.channels, req.recipients, i, j);
  }

  datatype ChannelTestReport = ChannelTestReport(
    channel: string,
    recipient: string,
    status: DeliveryStatus,
    message: Option<string>,
    error: Option<Fault>)

  function TestEmailRequest(s: Config.Settings, tenant: string, userEmail: string, recipient: string): Request {
    Post(s.emailServiceUrl + "/send",
         map["fiware-service" := tenant],
         JObj(map["to" := JStr(recipient),
                  "subject" := JStr("[TEST] Nekazari Notification Test"),
                  "body" := JStr("This is a test notification from n8n Integration Hub.\nTriggered by: " + userEmail)]))
  }

  /** `POST /notifications/test`: echoes channel and recipient; only email is sent and
      can fail; every other channel reports a mock success. */
  function TestNotificationChannel(s: Config.Settings, tenant: string, userEmail: string,
                                   channel: string, recipient: string, send: Request -> Outcome): (r: Handled<ChannelTestReport>)
    ensures r.reply.Ok?
    ensures r.reply.value.channel == channel && r.reply.value.recipient == recipient
    ensures r.reply.value.status == Failed <==> r.reply.value.error.Some?
    ensures channel != "email" ==>
      r.sent == [] && r.reply.value.status == Sent && r.reply.value.message == Some("Test " + channel + " notification sent (mock)")
    ensures channel == "email" ==>
      r.sent == [TestEmailRequest(s, tenant, userEmail, recipient)] &&
      (r.reply.value.status == Sent <==> Passed(send(TestEmailRequest(s, tenant, userEmail, recipient))))
    ensures channel == "email" && r.reply.value.status == Sent ==> r.reply.value.message == Some("Test notification sent successfully")
    ensures r.reply.value.status == Failed ==> r.reply.value.message.None?
  {
    if channel == "email" then
      var q := TestEmailRequest(s, tenant, userEmail, recipient);
      match Deliver(send(q))
      case None => Handled(Ok(ChannelTestReport(channel, recipient, Sent, Some("Test notification sent successfully"), None)), [q])
      case Some(f) => Handled(Ok(ChannelTestReport(channel, recipient, Failed, None, Some(f))), [q])
    else
      Handled(Ok(ChannelTestReport(channel, recipient, Sent, Some("Test " + channel + " notification sent (mock)"), None)), [])
  }

  /** The test endpoint treats a channel like the fan-out does: given the same answer
      from the email service, the test of a channel succeeds or fails, with the same
      exception, exactly as one pair of a send would, and makes as many calls. */
  lemma TestAgreesWithDispatch(s: Config.Settings, tenant: string, userEmail: string, req: NotificationRequest,
                               channel: string, recipient: string, send: Request -> Outcome)
    requires send(TestEmailRequest(s, tenant, userEmail, recipient)) == send(EmailRequest(s, tenant, req, recipient))
    ensures var t := TestNotificationChannel(s, tenant, userEmail, channel, recipient, send);
      var d := Dispatch(s, tenant, req, send, channel, recipient);
      && t.reply.value.status == d.0.status
      && t.reply.value.error == d.0.error
      && |t.sent| == |d.1|
  {
  }
}
