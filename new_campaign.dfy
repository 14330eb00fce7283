/**
 * The dialog that creates a single-message campaign: its form state, the
 * tag handlers that keep the tag list free of repeats, the custom tag
 * input, and the campaign built on submit.
 */
module NewCampaign {
  import opened Strings
  import opened Lists
  import opened Campaign

  /** What the form holds. */
  datatype CampaignForm = CampaignForm(
    title: string,
    template: string,
    audience: string,
    scheduledDate: string,
    scheduledTime: string,
    tags: seq<string>,
    priority: string)

  /** The form's initial values. */
  const EmptyForm := CampaignForm([], [], [], [], [], [], "normal")

  /** The campaign handed to the caller. */
  datatype NewCampaignData = NewCampaignData(
    title: string,
    status: CampaignStatus,
    audience: string,
    nextSend: string,
    messagesSent: nat,
    totalMessages: nat,
    template: string,
    tags: seq<string>,
    priority: string)

  /**
   * The campaign `handleSubmit` builds: the form's text fields as they
   * are, nothing sent yet, the total read from the audience, and the
   * status and next send fixed by the start date.
   */
  function Build(f: CampaignForm): (c: NewCampaignData)
    requires |Digits(f.audience)| <= MaxExactDigits
    ensures c.title == f.title && c.audience == f.audience && c.template == f.template
    ensures c.tags == f.tags && c.priority == f.priority
    ensures c.messagesSent == 0 && c.totalMessages >= 1
    ensures c.status == Scheduled <==> f.scheduledDate != []
    ensures c.nextSend == "Agora" <==> c.status == Active
    ensures c.status == StatusFor(f.scheduledDate) && c.nextSend == NextSend(f.scheduledDate, f.scheduledTime)
    ensures c.totalMessages == TotalMessages(f.audience)
  {
    NextSendAgreesWithStatus(f.scheduledDate, f.scheduledTime);
    NewCampaignData(f.title, StatusFor(f.scheduledDate), f.audience,
      NextSend(f.scheduledDate, f.scheduledTime), 0, TotalMessages(f.audience),
      f.template, f.tags, f.priority)
  }

  /** The dialog's state: the form and the custom tag being typed. */
  class NewCampaignDialog {
    var title: string
    var template: string
    var audience: string
    var scheduledDate: string
    var scheduledTime: string
    var tags: seq<string>
    var priority: string
    var newTag: string

    function Form(): CampaignForm
      reads this
    {
      CampaignForm(title, template, audience, scheduledDate, scheduledTime, tags, priority)
    }

    /** The tag list never holds a tag twice. */
    predicate Valid()
      reads this
    {
      Distinct(tags)
    }

    constructor ()
      ensures Valid() && Form() == EmptyForm && newTag == []
    {
      title, template, audience, scheduledDate, scheduledTime := [], [], [], [], [];
      tags, priority, newTag := [], "normal", [];
    }

    /** `handleAddTag`: a tag already present is ignored, a new one goes at the end. */
    method AddTag(tag: string)
      requires Valid()
      modifies this
      ensures Valid()
      ensures tags == AddAbsent(old(tags), tag)
      ensures Form() == old(Form()).(tags := tags) && newTag == old(newTag)
    {
      tags := AddAbsent(tags, tag);
    }

    /** `handleRemoveTag`: the tag leaves the list, the other tags keep their order. */
    method RemoveTag(tag: string)
      requires Valid()
      modifies this
      ensures Valid()
      ensures tags == Without(old(tags), tag) && IsSubsequence(tags, old(tags))
      ensures Form() == old(Form()).(tags := tags) && newTag == old(newTag)
    {
      tags := Without(tags, tag);
    }

    /** A tag button: removes its tag when selected, adds it otherwise. */
    method PressTag(tag: string)
      requires Valid()
      modifies this
      ensures Valid()
      ensures tags == Toggle(old(tags), tag)
      ensures Form() == old(Form()).(tags := tags) && newTag == old(newTag)
    {
      if tag in tags {
        RemoveTag(tag);
      } else {
        AddTag(tag);
      }
    }

    /** Typing in the custom tag input. */
    method TypeTag(text: string)
      modifies this
      ensures newTag == text && Form() == old(Form())
    {
      newTag := text;
    }

    /**
     * Enter or the plus button in the custom tag input: a blank entry is
     * ignored; otherwise the trimmed text is added as a tag and the input
     * is cleared.
     */
    method AddCustomTag()
      requires Valid()
      modifies this
      ensures Valid()
      ensures Trim(old(newTag)) == [] ==> Form() == old(Form()) && newTag == old(newTag)
      ensures Trim(old(newTag)) != [] ==>
        tags == AddAbsent(old(tags), Trim(old(newTag))) && newTag == []
        && Form() == old(Form()).(tags := tags)
    {
      var trimmed := Trim(newTag);
      if trimmed != [] {
        AddTag(trimmed);
        newTag := [];
      }
    }

    /** `handleSubmit`: hands over the campaign and returns the form to its initial values. */
    method Submit() returns (c: NewCampaignData)
      requires |Digits(audience)| <= MaxExactDigits
      modifies this
      ensures c == Build(old(Form()))
      ensures Valid() && Form() == EmptyForm && newTag == old(newTag)
    {
      c := Build(Form());
      title, template, audience, scheduledDate, scheduledTime := [], [], [], [], [];
      tags, priority := [], "normal";
    }
  }

  /** Adding a custom tag with surrounding spaces adds the same tag as typing it without them. */
  lemma CustomTagPadding(tags: seq<string>, w1: string, t: string, w2: string)
    requires AllSpace(w1) && AllSpace(w2)
    requires t != [] && !IsSpace(t[0]) && !IsSpace(t[|t| - 1])
    ensures Trim(w1 + t + w2) == t
    ensures AddAbsent(tags, Trim(w1 + t + w2)) == AddAbsent(tags, t)
  {
    TrimPadded(w1, t, w2);
  }
}
