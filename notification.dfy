/** The notification consumer: it declares the user-created queue, consumes
    it with manual acknowledgement, and for each message decides whether to
    simulate a welcome e-mail. The e-mail itself is a log line, so it is
    modelled as the notice the log line is about. */
module Notification {
  import opened Php
  import opened Json
  import opened Messaging

  /** `queue_declare($queueName, false, true, false, false)` with the queue
      name `user_created_queue`. */
  const Declared := QueueDecl("user_created_queue", false, true, false, false)

  /** Seconds of `sleep` before the process exits with an error. */
  const BackoffSeconds := 5

  /** The simulated welcome e-mail: the address and the name it greets. */
  datatype Notice = Notice(email: Value, greeting: Value)

  /** A delivered message: its delivery tag and its decoded body. */
  datatype Delivery = Delivery(tag: nat, body: Doc)

  /** `$data` is truthy: a decoded, non-empty array. (A decoded scalar has no
      fields here, so a truthy scalar such as `5` counts as false; its
      `isset($data['email'])` is false in PHP as well.) */
  predicate Truthy(body: Doc) {
    body.Decoded? && body.fields != map[]
  }

  /** `$data && isset($data['email'])`. */
  function WellFormed(body: Doc): (b: bool)
    ensures b ==> body.Decoded? && "email" in body.fields && body.fields["email"] != Null
  {
    Truthy(body) && IsSet(body, "email")
  }

  /** The truthiness test adds nothing to the email test: a set email makes
      the array non-empty. */
  lemma WellFormedIffEmail(body: Doc)
    ensures WellFormed(body) <==> IsSet(body, "email")
  {
    if IsSet(body, "email") {
      assert "email" in body.fields;
    }
  }

  /** The callback's decision: a notice for a well-formed body, greeting
      `name` when set and `user_id` otherwise; nothing (only a warning) for
      malformed JSON or a missing email. */
  function Decide(body: Doc): (n: Option<Notice>)
    ensures n.Some? <==> WellFormed(body)
    ensures n.Some? ==> n.value.email == Get(body, "email") && n.value.email != Null
    ensures n.Some? && IsSet(body, "name") ==> n.value.greeting == Get(body, "name")
    ensures n.Some? && !IsSet(body, "name") ==> n.value.greeting == Get(body, "user_id")
  {
    if WellFormed(body) then Some(Notice(Get(body, "email"), GetOr(body, "name", Get(body, "user_id"))))
    else None
  }

  /** The notices a single message yields: zero or one. */
  function Sends(d: Delivery): seq<Notice> {
    match Decide(d.body)
    case Some(n) => [n]
    case None => []
  }

  /** The delivery tags of a sequence of messages, in order. */
  function Tags(ds: seq<Delivery>): (ts: seq<nat>)
    ensures |ts| == |ds|
    ensures forall i :: 0 <= i < |ds| ==> ts[i] == ds[i].tag
  {
    if ds == [] then [] else Tags(ds[..|ds| - 1]) + [ds[|ds| - 1].tag]
  }

  /** The notices of a sequence of messages, in order. */
  function Notices(ds: seq<Delivery>): (ns: seq<Notice>)
    ensures |ns| <= |ds|
    ensures forall i :: 0 <= i < |ns| ==> ns[i].email != Null
  {
    if ds == [] then [] else Notices(ds[..|ds| - 1]) + Sends(ds[|ds| - 1])
  }

  /** The positions of the well-formed messages. */
  function WellFormedPositions(ds: seq<Delivery>): set<int> {
    set i | 0 <= i < |ds| && WellFormed(ds[i].body)
  }

  /** One notice per well-formed message, and none for the others. */
  lemma {:induction false} NoticesCount(ds: seq<Delivery>)
    ensures |Notices(ds)| == |WellFormedPositions(ds)|
    decreases |ds|
  {
    if ds != [] {
      var init := ds[..|ds| - 1];
      NoticesCount(init);
      WellFormedPositionsStep(ds);
    }
  }

  /** The positions of a non-empty sequence are those of all but its last
      message, plus the last position when that message is well formed. */
  lemma WellFormedPositionsStep(ds: seq<Delivery>)
    requires ds != []
    ensures var last := |ds| - 1;
      WellFormedPositions(ds)
        == WellFormedPositions(ds[..last]) + (if WellFormed(ds[last].body) then {last} else {})
    ensures |ds| - 1 !in WellFormedPositions(ds[..|ds| - 1])
  {
    var last := |ds| - 1;
    assert WellFormedPositions(ds[..last]) == set i | 0 <= i < last && WellFormed(ds[i].body);
  }

  /** Every notice is about a message that carried that email. */
  lemma {:induction false} NoticesFromMessages(ds: seq<Delivery>)
    ensures forall n :: n in Notices(ds) ==> exists i :: 0 <= i < |ds| && Decide(ds[i].body) == Some(n)
    decreases |ds|
  {
    if ds != [] {
      var init := ds[..|ds| - 1];
      NoticesFromMessages(init);
      forall n | n in Notices(ds)
        ensures exists i :: 0 <= i < |ds| && Decide(ds[i].body) == Some(n)
      {
        if n in Notices(init) {
          var i :| 0 <= i < |init| && Decide(init[i].body) == Some(n);
          assert ds[i] == init[i];
        } else {
          assert Decide(ds[|ds| - 1].body) == Some(n);
        }
      }
    }
  }

  /** How the process ends: its exit code and the seconds slept before. */
  datatype Exit = Exit(code: int, sleptSeconds: nat)

  /** The consumer process: the tags it has acknowledged and the notices
      it has produced. */
  class Consumer {
    var acked: seq<nat>
    var sent: seq<Notice>

    constructor ()
      ensures acked == [] && sent == []
    {
      acked := [];
      sent := [];
    }

    /** The callback: decide, then `ack()` whatever the decision was. */
    method OnMessage(d: Delivery)
      modifies this
      ensures acked == old(acked) + [d.tag]
      ensures sent == old(sent) + Sends(d)
    {
      var n := Decide(d.body);
      if n.Some? {
        sent := sent + [n.value];
      }
      acked := acked + [d.tag];
    }

    /** `while ($channel->is_consuming()) $channel->wait();` over the
        messages that arrive: each one goes through the callback in turn. */
    method Drain(ds: seq<Delivery>)
      modifies this
      ensures acked == old(acked) + Tags(ds)
      ensures sent == old(sent) + Notices(ds)
    {
      var i := 0;
      while i < |ds|
        invariant 0 <= i <= |ds|
        invariant acked == old(acked) + Tags(ds[..i])
        invariant sent == old(sent) + Notices(ds[..i])
      {
        OnMessage(ds[i]);
        assert ds[..i + 1][..i] == ds[..i];
        i := i + 1;
      }
      assert ds[..|ds|] == ds;
    }

    /** The whole script. When the connection or the declaration fails, or
        the connection is lost while waiting, the exception is logged, the
        process sleeps 5 seconds and exits with 1; there is no retry inside
        the process. When consuming ends normally the script ends with 0. */
    method Run(connects: bool, ds: seq<Delivery>, lost: bool) returns (declared: Option<QueueDecl>, exit: Exit)
      modifies this
      ensures declared == (if connects then Some(Declared) else None)
      ensures exit == (if !connects || lost then Exit(1, BackoffSeconds) else Exit(0, 0))
      ensures connects ==> acked == old(acked) + Tags(ds) && sent == old(sent) + Notices(ds)
      ensures !connects ==> acked == old(acked) && sent == old(sent)
    {
      if !connects {
        return None, Exit(1, BackoffSeconds);
      }
      declared := Some(Declared);
      Drain(ds);
      if lost {
        exit := Exit(1, BackoffSeconds);
      } else {
        exit := Exit(0, 0);
      }
    }
  }
}
