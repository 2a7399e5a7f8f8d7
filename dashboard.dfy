/**
  The dashboard page's state: the time-entry form, the list of entries,
  and the handlers that change them (submit, the overtime-reason and
  responsible-person selects, the time pickers, edit and delete). Calls to
  the backend are replaced by their outcome, passed in as a parameter.
 */
module Dashboard {
  import opened Wrappers
  import opened Calendar
  import opened Shift
  import opened Entries
  import opened MonthView

  /** The form; an empty time string is `None`, an unselected reason too. */
  datatype FormData = FormData(
    startTime: Option<ClockTime>,
    endTime: Option<ClockTime>,
    date: Date,
    overtimeReason: Option<Reason>,
    responsiblePerson: Person)

  /** What is sent to the backend to create an entry. */
  datatype Payload = Payload(
    startTime: Instant,
    endTime: Instant,
    date: Date,
    overtimeReason: Option<Reason>,
    responsiblePerson: Person)

  datatype SubmitError =
    | InvalidTimeValue          // a time was left empty, so no instant can be formed
    | MissingResponsiblePerson  // "Company Request" overtime without a responsible person
    | SaveFailed                // the backend refused to store the entry
    | DeleteFailed              // the backend refused to delete the entry

  /**
    The empty form the page starts with and returns to after a save: it is
    a form the selects can produce, it is not overtime, and submitting it
    as it is fails for want of times.
   */
  function BlankForm(today: Date): (f: FormData)
    ensures ValidForm(f) && f.date == today
    ensures !IsOvertime(f.startTime, f.endTime)
    ensures ValidDate(today) ==> Submission(f, today) == Failure(InvalidTimeValue)
  {
    FormData(None, None, today, None, Nobody)
  }

  /**
    What the form's selects can produce: well-formed times, and a
    responsible person only next to the "Company Request" reason.
   */
  predicate ValidForm(f: FormData) {
    (f.startTime.Some? ==> ValidClock(f.startTime.value)) &&
    (f.endTime.Some? ==> ValidClock(f.endTime.value)) &&
    (f.responsiblePerson != Nobody ==> f.overtimeReason == Some(CompanyRequest))
  }

  /** A responsible person is named exactly when the reason is "Company Request". */
  predicate ConsistentPayload(p: Payload) {
    p.responsiblePerson != Nobody <==> p.overtimeReason == Some(CompanyRequest)
  }

  /**
    The outcome of validating the form for the selected date: the payload
    sent to the backend, or the error the handler raises before any call.
   */
  function Submission(form: FormData, selected: Date): (r: Result<Payload, SubmitError>)
    requires ValidDate(selected)
    ensures r.Failure? ==> r.error == InvalidTimeValue || r.error == MissingResponsiblePerson
    ensures r == Failure(InvalidTimeValue) <==> form.startTime.None? || form.endTime.None?
    ensures r == Failure(MissingResponsiblePerson) <==>
      IsOvertime(form.startTime, form.endTime) &&
      form.overtimeReason == Some(CompanyRequest) && form.responsiblePerson == Nobody
    ensures r.Success? ==>
      r.value.date == selected &&
      r.value.startTime == Instant(selected, MinuteOfDay(form.startTime.value)) &&
      r.value.endTime.minute == MinuteOfDay(form.endTime.value) &&
      r.value.endTime.date ==
        (if MinuteOfDay(form.endTime.value) < MinuteOfDay(form.startTime.value) then NextDay(selected) else selected) &&
      !InstantBefore(r.value.endTime, r.value.startTime)
    ensures r.Success? && !IsOvertime(form.startTime, form.endTime) ==>
      r.value.overtimeReason == None && r.value.responsiblePerson == Nobody
    ensures r.Success? && IsOvertime(form.startTime, form.endTime) ==>
      r.value.overtimeReason == form.overtimeReason && r.value.responsiblePerson == form.responsiblePerson
    ensures r.Success? && ValidForm(form) ==> ConsistentPayload(r.value)
  {
    if form.startTime.None? || form.endTime.None? then Failure(InvalidTimeValue)
    else
      var s, e := form.startTime.value, form.endTime.value;
      var from := Instant(selected, MinuteOfDay(s));
      var to := ShiftEnd(selected, s, e);
      if !IsOvertime(form.startTime, form.endTime) then
        Success(Payload(from, to, selected, None, Nobody))
      else if form.overtimeReason == Some(CompanyRequest) && form.responsiblePerson == Nobody then
        Failure(MissingResponsiblePerson)
      else
        Success(Payload(from, to, selected, form.overtimeReason, form.responsiblePerson))
  }

  /** "Company Request" overtime without a person fails; with "Boss" it is sent. */
  lemma CompanyRequestNeedsPerson(today: Date)
    requires ValidDate(today)
    ensures
      var f := FormData(Some(ClockTime(8, 0)), Some(ClockTime(21, 0)), today, Some(CompanyRequest), Nobody);
      Submission(f, today) == Failure(MissingResponsiblePerson) &&
      Submission(f.(responsiblePerson := Boss), today).Success?
  {
  }

  class DashboardPage {
    var entries: seq<TimeEntry>
    var form: FormData
    var selectedDate: Date
    var error: Option<SubmitError>

    ghost predicate Valid()
      reads this
    {
      ValidDate(selectedDate) && ValidForm(form)
    }

    constructor (today: Date)
      requires ValidDate(today)
      ensures Valid()
      ensures entries == [] && form == BlankForm(today) && selectedDate == today && error == None
    {
      entries := [];
      form := BlankForm(today);
      selectedDate := today;
      error := None;
    }

    /** The start time picker. */
    method SetStartTime(t: ClockTime)
      requires Valid() && ValidClock(t)
      modifies this
      ensures Valid()
      ensures form == old(form).(startTime := Some(t))
      ensures entries == old(entries) && selectedDate == old(selectedDate) && error == old(error)
    {
      form := form.(startTime := Some(t));
    }

    /** The end time picker. */
    method SetEndTime(t: ClockTime)
      requires Valid() && ValidClock(t)
      modifies this
      ensures Valid()
      ensures form == old(form).(endTime := Some(t))
      ensures entries == old(entries) && selectedDate == old(selectedDate) && error == old(error)
    {
      form := form.(endTime := Some(t));
    }

    /** The date input. */
    method SelectDate(d: Date)
      requires Valid() && ValidDate(d)
      modifies this
      ensures Valid()
      ensures selectedDate == d
      ensures entries == old(entries) && form == old(form) && error == old(error)
    {
      selectedDate := d;
    }

    /**
      The overtime-reason select: any reason other than "Company Request"
      (or none) clears the responsible person; "Company Request" keeps it.
     */
    method SelectReason(choice: Option<Reason>)
      requires Valid()
      modifies this
      ensures Valid()
      ensures form.overtimeReason == choice
      ensures form.responsiblePerson == if choice == Some(CompanyRequest) then old(form.responsiblePerson) else Nobody
      ensures form.startTime == old(form.startTime) && form.endTime == old(form.endTime) && form.date == old(form.date)
      ensures entries == old(entries) && selectedDate == old(selectedDate) && error == old(error)
    {
      form := form.(
        overtimeReason := choice,
        responsiblePerson := if choice == Some(CompanyRequest) then form.responsiblePerson else Nobody);
    }

    /** The responsible-person select, shown only next to the "Company Request" reason. */
    method SelectPerson(p: Person)
      requires Valid()
      requires form.overtimeReason == Some(CompanyRequest)
      modifies this
      ensures Valid()
      ensures form == old(form).(responsiblePerson := p)
      ensures entries == old(entries) && selectedDate == old(selectedDate) && error == old(error)
    {
      form := form.(responsiblePerson := p);
    }

    /**
      The submit handler. `stored` is what the backend returns for the
      payload (`None` when the call fails); `today` is the clock, used to
      reset the form. The new entry is appended only after a successful save;
      on any error the list and the form are left as they were.
     */
    method Submit(stored: Option<TimeEntry>, today: Date) returns (r: Result<Payload, SubmitError>)
      requires Valid() && ValidDate(today)
      modifies this
      ensures Valid()
      ensures selectedDate == old(selectedDate)
      ensures Submission(old(form), old(selectedDate)).Failure? ==> r == Submission(old(form), old(selectedDate))
      ensures Submission(old(form), old(selectedDate)).Success? ==>
        r == if stored.Some? then Submission(old(form), old(selectedDate)) else Failure(SaveFailed)
      ensures r.Success? ==> entries == old(entries) + [stored.value] && form == BlankForm(today) && error == None
      ensures r.Failure? ==> entries == old(entries) && form == old(form) && error == Some(r.error)
    {
      error := None;
      if form.startTime.None? || form.endTime.None? {
        r := Failure(InvalidTimeValue);
        error := Some(r.error);
        return;
      }
      var from, to := ShiftInstants(selectedDate, form.startTime.value, form.endTime.value);
      var overtimeReason: Option<Reason> := None;
      var responsiblePerson := Nobody;
      if IsOvertime(form.startTime, form.endTime) {
        overtimeReason := form.overtimeReason;
        if overtimeReason == Some(CompanyRequest) && form.responsiblePerson == Nobody {
          r := Failure(MissingResponsiblePerson);
          error := Some(r.error);
          return;
        }
        responsiblePerson := form.responsiblePerson;
      }
      var payload := Payload(from, to, selectedDate, overtimeReason, responsiblePerson);
      if stored.None? {
        r := Failure(SaveFailed);
        error := Some(r.error);
        return;
      }
      entries := entries + [stored.value];
      form := BlankForm(today);
      r := Success(payload);
    }

    /** The edit dialog's callback: the entry with the same id is replaced in place. */
    method UpdateEntry(updated: TimeEntry)
      requires Valid()
      modifies this
      ensures Valid()
      ensures entries == ReplaceById(old(entries), updated)
      ensures form == old(form) && selectedDate == old(selectedDate) && error == old(error)
    {
      entries := ReplaceById(entries, updated);
    }

    /**
      The delete handler: nothing happens unless the user confirms; after
      a successful backend delete every entry with that id is dropped,
      otherwise the list stays and the error is shown.
     */
    method Delete(id: string, confirmed: bool, deleted: bool)
      requires Valid()
      modifies this
      ensures Valid()
      ensures entries == if confirmed && deleted then RemoveById(old(entries), id) else old(entries)
      ensures error == if confirmed && !deleted then Some(DeleteFailed) else old(error)
      ensures form == old(form) && selectedDate == old(selectedDate)
    {
      if !confirmed {
        return;
      }
      if deleted {
        entries := RemoveById(entries, id);
      } else {
        error := Some(DeleteFailed);
      }
    }
  }
}
