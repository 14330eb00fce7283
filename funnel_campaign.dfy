/**
 * The dialog that creates a funnel campaign: a sequence of one to four
 * messages sent days apart, with add, remove and update handlers, the
 * submit checks and the campaign built from the form. The clock reading
 * used as a new message's id is a parameter.
 */
module FunnelCampaign {
  import opened Strings
  import opened Lists
  import opened Campaign

  /** One message of the funnel. */
  datatype FunnelMessage = FunnelMessage(id: string, template: string, delayDays: int, order: int)

  /** The most messages a funnel may hold. */
  const MaxMessages := 4

  /** The single message a new or reset funnel holds. */
  const FirstMessage := FunnelMessage("1", [], 0, 1)

  /** No two messages share an id. */
  predicate DistinctIds(ms: seq<FunnelMessage>) {
    forall i, j :: 0 <= i < j < |ms| ==> ms[i].id != ms[j].id
  }

  /** No message has the id. */
  predicate FreshId(ms: seq<FunnelMessage>, id: string) {
    forall i :: 0 <= i < |ms| ==> ms[i].id != id
  }

  /** `funnelMessages.filter(msg => msg.id !== id)`: the messages with the id gone, the rest in order and not renumbered. */
  function RemoveById(ms: seq<FunnelMessage>, id: string): (r: seq<FunnelMessage>)
    ensures forall m :: m in r <==> m in ms && m.id != id
    ensures IsSubsequence(r, ms)
  {
    var keep := (m: FunnelMessage) => m.id != id;
    FilterIsSubsequence(ms, keep);
    Filter(ms, keep)
  }

  /** Removing one id from messages with distinct ids takes away at most one message and keeps the ids distinct. */
  lemma {:induction false} RemoveAtMostOne(ms: seq<FunnelMessage>, id: string)
    requires DistinctIds(ms)
    ensures |RemoveById(ms, id)| >= |ms| - 1
    ensures DistinctIds(RemoveById(ms, id))
  {
    if ms != [] {
      var tail := ms[1..];
      assert DistinctIds(tail) by {
        forall i, j | 0 <= i < j < |tail| ensures tail[i].id != tail[j].id {
          assert tail[i] == ms[i + 1] && tail[j] == ms[j + 1];
        }
      }
      RemoveAtMostOne(tail, id);
      var keep := (m: FunnelMessage) => m.id != id;
      assert RemoveById(ms, id) == Filter(ms, keep);
      assert RemoveById(tail, id) == Filter(tail, keep);
      if ms[0].id == id {
        assert FreshId(tail, id) by {
          forall i | 0 <= i < |tail| ensures tail[i].id != id {
            assert tail[i] == ms[i + 1];
          }
        }
        FilterAll(tail, keep);
      } else {
        HeadIdNotInRest(ms, RemoveById(tail, id));
      }
    }
  }

  /** Putting back a head whose id the tail lacks keeps the ids distinct. */
  lemma HeadIdNotInRest(ms: seq<FunnelMessage>, rest: seq<FunnelMessage>)
    requires ms != [] && DistinctIds(ms) && DistinctIds(rest)
    requires forall m :: m in rest ==> m in ms[1..]
    ensures DistinctIds([ms[0]] + rest)
  {
    var r := [ms[0]] + rest;
    forall i, j | 0 <= i < j < |r| ensures r[i].id != r[j].id {
      if i == 0 {
        assert r[j] == rest[j - 1];
        assert r[j] in ms[1..];
        var k :| 0 <= k < |ms| - 1 && ms[1..][k] == r[j];
        assert ms[k + 1] == r[j];
      } else {
        assert r[i] == rest[i - 1] && r[j] == rest[j - 1];
      }
    }
  }

  /** The fields `updateFunnelMessage` is called with: the template text and the delay in days. */
  datatype Update = SetTemplate(template: string) | SetDelay(days: int)

  /** `{ ...msg, [field]: value }`. */
  function Apply(m: FunnelMessage, u: Update): (r: FunnelMessage)
    ensures r.id == m.id && r.order == m.order
    ensures u.SetTemplate? ==> r.template == u.template && r.delayDays == m.delayDays
    ensures u.SetDelay? ==> r.delayDays == u.days && r.template == m.template
  {
    match u
    case SetTemplate(t) => m.(template := t)
    case SetDelay(d) => m.(delayDays := d)
  }

  /** `funnelMessages.map(msg => msg.id === id ? { ...msg, [field]: value } : msg)`. */
  function UpdateById(ms: seq<FunnelMessage>, id: string, u: Update): (r: seq<FunnelMessage>)
    ensures |r| == |ms|
    ensures forall i :: 0 <= i < |ms| ==> r[i].id == ms[i].id && r[i].order == ms[i].order
    ensures forall i :: 0 <= i < |ms| && ms[i].id != id ==> r[i] == ms[i]
    ensures forall i :: 0 <= i < |ms| && ms[i].id == id ==> r[i] == Apply(ms[i], u)
  {
    seq(|ms|, i requires 0 <= i < |ms| => if ms[i].id == id then Apply(ms[i], u) else ms[i])
  }

  /** Updating a message twice with the same field keeps only the second value. */
  lemma UpdateLastWins(ms: seq<FunnelMessage>, id: string, t1: string, t2: string)
    ensures UpdateById(UpdateById(ms, id, SetTemplate(t1)), id, SetTemplate(t2)) == UpdateById(ms, id, SetTemplate(t2))
  {
  }

  /** The outcome of the submit checks. */
  datatype FunnelVerdict = MissingTitle | BlankMessage | FunnelAccepted

  /** The first check is a non-blank title, the second a non-blank template in every message. */
  function CheckFunnel(title: string, ms: seq<FunnelMessage>): (v: FunnelVerdict)
    ensures v == MissingTitle <==> AllSpace(title)
    ensures v == BlankMessage <==> !AllSpace(title) && exists i :: 0 <= i < |ms| && AllSpace(ms[i].template)
    ensures v == FunnelAccepted <==> !AllSpace(title) && forall i :: 0 <= i < |ms| ==> !AllSpace(ms[i].template)
  {
    if Trim(title) == [] then MissingTitle
    else if exists i :: 0 <= i < |ms| && Trim(ms[i].template) == [] then BlankMessage
    else FunnelAccepted
  }

  /** What the form holds besides the messages. */
  datatype FunnelForm = FunnelForm(
    title: string,
    audience: string,
    scheduledDate: string,
    scheduledTime: string,
    endDate: string,
    endTime: string)

  const EmptyFunnelForm := FunnelForm([], [], [], [], [], [])

  /** The funnel campaign handed to the caller; `kind` is the source's `type` member, always "funnel". */
  datatype FunnelCampaignData = FunnelCampaignData(
    title: string,
    kind: string,
    status: CampaignStatus,
    audience: string,
    nextSend: string,
    messagesSent: nat,
    totalMessages: nat,
    funnel: seq<FunnelMessage>,
    startDate: string,
    startTime: string,
    endDate: string,
    endTime: string)

  /** The campaign built from a form that passed the checks. */
  function BuildFunnel(f: FunnelForm, ms: seq<FunnelMessage>): (c: FunnelCampaignData)
    requires |Digits(f.audience)| <= MaxExactDigits
    ensures c.title == f.title && c.kind == "funnel" && c.audience == f.audience && c.funnel == ms
    ensures c.startDate == f.scheduledDate && c.startTime == f.scheduledTime
    ensures c.endDate == f.endDate && c.endTime == f.endTime
    ensures c.messagesSent == 0 && c.totalMessages >= 1
    ensures c.status == Scheduled <==> f.scheduledDate != []
    ensures c.nextSend == "Agora" <==> c.status == Active
    ensures c.status == StatusFor(f.scheduledDate) && c.nextSend == NextSend(f.scheduledDate, f.scheduledTime)
    ensures c.totalMessages == TotalMessages(f.audience)
  {
    NextSendAgreesWithStatus(f.scheduledDate, f.scheduledTime);
    FunnelCampaignData(f.title, "funnel", StatusFor(f.scheduledDate), f.audience,
      NextSend(f.scheduledDate, f.scheduledTime), 0, TotalMessages(f.audience), ms,
      f.scheduledDate, f.scheduledTime, f.endDate, f.endTime)
  }

  /** What pressing submit did. */
  datatype FunnelOutcome = FunnelRejected(verdict: FunnelVerdict) | FunnelCreated(campaign: FunnelCampaignData)

  /** The dialog's state. */
  class FunnelDialog {
    var form: FunnelForm
    var messages: seq<FunnelMessage>

    /** One to four messages, no two with the same id. */
    predicate Valid()
      reads this
    {
      1 <= |messages| <= MaxMessages && DistinctIds(messages)
    }

    constructor ()
      ensures Valid() && form == EmptyFunnelForm && messages == [FirstMessage]
    {
      form := EmptyFunnelForm;
      messages := [FirstMessage];
    }

    /**
     * `addFunnelMessage`: refused when four messages exist; otherwise a
     * message with an empty template, a one-day delay and the next order
     * number is appended. The id comes from the clock; the funnel stays
     * valid as long as that id is new.
     */
    method AddMessage(nowId: string) returns (added: bool)
      requires Valid()
      modifies this
      ensures added <==> |old(messages)| < MaxMessages
      ensures !added ==> messages == old(messages)
      ensures added ==> messages == old(messages) + [FunnelMessage(nowId, [], 1, |old(messages)| + 1)]
      ensures form == old(form)
      ensures FreshId(old(messages), nowId) ==> Valid()
    {
      if |messages| >= MaxMessages {
        return false;
      }
      messages := messages + [FunnelMessage(nowId, [], 1, |messages| + 1)];
      added := true;
    }

    /**
     * `removeFunnelMessage`: refused when only one message is left;
     * otherwise the messages with the id are dropped and the others keep
     * their order numbers.
     */
    method RemoveMessage(id: string) returns (removed: bool)
      requires Valid()
      modifies this
      ensures Valid()
      ensures removed <==> |old(messages)| > 1
      ensures !removed ==> messages == old(messages)
      ensures removed ==> messages == RemoveById(old(messages), id)
      ensures form == old(form)
    {
      if |messages| <= 1 {
        return false;
      }
      RemoveAtMostOne(messages, id);
      messages := RemoveById(messages, id);
      removed := true;
    }

    /** `updateFunnelMessage`: the messages with the id get the new field value. */
    method UpdateMessage(id: string, u: Update)
      requires Valid()
      modifies this
      ensures Valid()
      ensures messages == UpdateById(old(messages), id, u) && form == old(form)
    {
      messages := UpdateById(messages, id, u);
    }

    /** Editing one of the form's fields. */
    method SetForm(f: FunnelForm)
      modifies this
      ensures form == f && messages == old(messages)
    {
      form := f;
    }

    /**
     * `handleSubmit`: a blank title or a blank message is reported and
     * nothing changes; otherwise the campaign is handed over and the form
     * and the funnel go back to their initial state.
     */
    method Submit() returns (outcome: FunnelOutcome)
      requires Valid() && |Digits(form.audience)| <= MaxExactDigits
      modifies this
      ensures Valid()
      ensures CheckFunnel(old(form.title), old(messages)) != FunnelAccepted ==>
        outcome == FunnelRejected(CheckFunnel(old(form.title), old(messages)))
        && form == old(form) && messages == old(messages)
      ensures CheckFunnel(old(form.title), old(messages)) == FunnelAccepted ==>
        outcome == FunnelCreated(BuildFunnel(old(form), old(messages)))
        && form == EmptyFunnelForm && messages == [FirstMessage]
    {
      var verdict := CheckFunnel(form.title, messages);
      if verdict != FunnelAccepted {
        return FunnelRejected(verdict);
      }
      outcome := FunnelCreated(BuildFunnel(form, messages));
      form := EmptyFunnelForm;
      messages := [FirstMessage];
    }
  }
}
