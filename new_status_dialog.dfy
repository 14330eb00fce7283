/**
 * The dialog that creates or edits a scheduled WhatsApp status: the form
 * state, the weekday toggle, the validation chain of `handleSubmit` (the
 * first failing check wins and nothing is created) and the status it
 * builds. The clock readings used for a new status's id and creation
 * time are parameters.
 */
module NewStatusDialog {
  import opened Options
  import opened Lists

  /** The media type select: text only, image with caption, video with caption. */
  datatype MediaType = TextOnly | Image | Video

  /** The repeat select: no repetition, daily, weekly. */
  datatype RepeatType = NoRepeat | Daily | Weekly

  /** A scheduled status as the dialog builds it and the scheduler lists it. */
  datatype Status = Status(
    id: int,
    title: string,
    content: string,
    mediaType: MediaType,
    mediaUrl: string,
    scheduleDate: string,
    time: string,
    repeatType: RepeatType,
    days: seq<string>,
    active: bool,
    createdAt: string)

  /** What the form holds when the submit button is pressed. */
  datatype Draft = Draft(
    title: string,
    content: string,
    mediaType: MediaType,
    mediaPreview: string,
    scheduleDate: string,
    scheduleTime: string,
    repeatType: RepeatType,
    selectedDays: seq<string>)

  /** The outcome of the validation chain: the first check that failed, or acceptance. */
  datatype Verdict = MissingText | MissingMedia | MissingSchedule | MissingDays | Accepted

  /** An image or a video needs an attachment, unless an existing status is being edited. */
  predicate NeedsMedia(d: Draft, editing: bool) {
    (d.mediaType == Image || d.mediaType == Video) && d.mediaPreview == [] && !editing
  }

  /**
   * The checks of `handleSubmit`, in order: title and content, then the
   * attachment, then date and time, then at least one day for a weekly
   * repeat. A draft is accepted exactly when it passes all four.
   */
  function Check(d: Draft, editing: bool): (v: Verdict)
    ensures v == Accepted <==>
      d.title != [] && d.content != [] && !NeedsMedia(d, editing)
      && d.scheduleDate != [] && d.scheduleTime != []
      && (d.repeatType == Weekly ==> d.selectedDays != [])
    ensures v == MissingText <==> d.title == [] || d.content == []
    ensures v == MissingMedia <==> d.title != [] && d.content != [] && NeedsMedia(d, editing)
    ensures v == MissingSchedule <==>
      d.title != [] && d.content != [] && !NeedsMedia(d, editing)
      && (d.scheduleDate == [] || d.scheduleTime == [])
    ensures v == MissingDays <==>
      d.title != [] && d.content != [] && !NeedsMedia(d, editing)
      && d.scheduleDate != [] && d.scheduleTime != []
      && d.repeatType == Weekly && d.selectedDays == []
  {
    if d.title == [] || d.content == [] then MissingText
    else if NeedsMedia(d, editing) then MissingMedia
    else if d.scheduleDate == [] || d.scheduleTime == [] then MissingSchedule
    else if d.repeatType == Weekly && d.selectedDays == [] then MissingDays
    else Accepted
  }

  /** Only a weekly repeat looks at the selected days: for the other repeat types any selection gives the same verdict. */
  lemma DaysOnlyMatterWeekly(d: Draft, editing: bool, days: seq<string>)
    requires d.repeatType != Weekly
    ensures Check(d.(selectedDays := days), editing) == Check(d, editing)
  {
  }

  /**
   * The status a valid draft becomes: active, with the form's fields, the
   * id and creation time of the edited status when those are set, and the
   * clock readings otherwise (`editStatus?.id || Date.now()`).
   */
  function NewStatus(d: Draft, editing: Option<Status>, nowId: int, nowIso: string): (s: Status)
    ensures s.active
    ensures s.title == d.title && s.content == d.content && s.mediaUrl == d.mediaPreview
    ensures s.mediaType == d.mediaType && s.time == d.scheduleTime && s.days == d.selectedDays
    ensures s.scheduleDate == d.scheduleDate && s.repeatType == d.repeatType
    ensures s.id == (if editing.Some? && editing.value.id != 0 then editing.value.id else nowId)
    ensures s.createdAt == (if editing.Some? && editing.value.createdAt != [] then editing.value.createdAt else nowIso)
  {
    Status(
      if editing.Some? && editing.value.id != 0 then editing.value.id else nowId,
      d.title, d.content, d.mediaType, d.mediaPreview, d.scheduleDate, d.scheduleTime,
      d.repeatType, d.selectedDays, true,
      if editing.Some? && editing.value.createdAt != [] then editing.value.createdAt else nowIso)
  }

  /** What pressing submit did. */
  datatype SubmitOutcome = Rejected(verdict: Verdict) | Created(status: Status)

  /** The dialog's form state. */
  class StatusForm {
    var title: string
    var content: string
    var mediaType: MediaType
    var mediaPreview: string
    var scheduleDate: string
    var scheduleTime: string
    var repeatType: RepeatType
    var selectedDays: seq<string>

    /** The form's current values. */
    function Current(): Draft
      reads this
    {
      Draft(title, content, mediaType, mediaPreview, scheduleDate, scheduleTime, repeatType, selectedDays)
    }

    /** Every field holds its default. */
    predicate IsReset()
      reads this
    {
      Current() == Draft([], [], TextOnly, [], [], [], NoRepeat, [])
    }

    /** The initial state: the edited status's values, or the defaults. */
    constructor (editing: Option<Status>)
      ensures editing.None? ==> IsReset()
      ensures editing.Some? ==> Current() == Draft(editing.value.title, editing.value.content,
        editing.value.mediaType, editing.value.mediaUrl, editing.value.scheduleDate,
        editing.value.time, editing.value.repeatType, editing.value.days)
    {
      if editing.Some? {
        var e := editing.value;
        title, content, mediaType, mediaPreview := e.title, e.content, e.mediaType, e.mediaUrl;
        scheduleDate, scheduleTime, repeatType, selectedDays := e.scheduleDate, e.time, e.repeatType, e.days;
      } else {
        title, content, mediaType, mediaPreview := [], [], TextOnly, [];
        scheduleDate, scheduleTime, repeatType, selectedDays := [], [], NoRepeat, [];
      }
    }

    /** `handleDayToggle`: removes the day if selected, appends it otherwise; nothing else changes. */
    method ToggleDay(day: string)
      modifies this
      ensures selectedDays == Toggle(old(selectedDays), day)
      ensures Current() == old(Current()).(selectedDays := selectedDays)
    {
      selectedDays := Toggle(selectedDays, day);
    }

    /** `handleRemoveMedia`: forgets the attachment. */
    method RemoveMedia()
      modifies this
      ensures Current() == old(Current()).(mediaPreview := [])
    {
      mediaPreview := [];
    }

    /**
     * `handleSubmit`: a draft that fails a check is reported and left as
     * it is; a valid one is handed over as a status and the form is reset.
     */
    method Submit(editing: Option<Status>, nowId: int, nowIso: string) returns (outcome: SubmitOutcome)
      modifies this
      ensures Check(old(Current()), editing.Some?) != Accepted ==>
        outcome == Rejected(Check(old(Current()), editing.Some?)) && Current() == old(Current())
      ensures Check(old(Current()), editing.Some?) == Accepted ==>
        outcome == Created(NewStatus(old(Current()), editing, nowId, nowIso)) && IsReset()
    {
      var verdict := Check(Current(), editing.Some?);
      if verdict != Accepted {
        return Rejected(verdict);
      }
      outcome := Created(NewStatus(Current(), editing, nowId, nowIso));
      title, content, mediaType, mediaPreview := [], [], TextOnly, [];
      scheduleDate, scheduleTime, repeatType, selectedDays := [], [], NoRepeat, [];
    }
  }
}
