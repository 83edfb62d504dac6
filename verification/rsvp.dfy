/** The RSVP section: a form (name, number of guests, message, attendance)
    whose submission prepends a wish to the list shown beside it, and a
    reset that brings back an empty form. The clock reading used for the
    wish id is a parameter. */
module Rsvp {
  import opened Text
  import opened Config

  datatype Attendance = Attending | NotAttending

  datatype Wish = Wish(id: string, name: string, message: string, date: string, attendance: Attendance)

  /** `formData`; `guests` is the selected number of persons. */
  datatype Form = Form(name: string, guests: nat, message: string, attendance: Attendance)

  datatype RsvpState = RsvpState(messages: seq<Wish>, form: Form, submitted: bool)

  const DefaultForm := Form("", 1, "", Attending)

  /** The wishes shown before any visitor writes. */
  const InitialWishes: seq<Wish> := [
    Wish("1", "Sarah & James",
         "So happy for you two! Can't wait to celebrate in Kyoto. It's going to be magical.",
         "2 hours ago", Attending),
    Wish("2", "Uncle Bob",
         "Wishing you a lifetime of love and happiness. Sorry I can't make the trip.",
         "5 hours ago", NotAttending),
    Wish("3", "Elena Gilbert", "Congratulations Kaia & Leo! See you at the altar.",
         "1 day ago", Attending)
  ]

  const Initial := RsvpState(InitialWishes, DefaultForm, false)

  /** The choices of the guests selector. */
  const GuestOptions: seq<nat> := [1, 2, 3, 4]

  lemma InitialState()
    ensures |Initial.messages| == 3 && !Initial.submitted
    ensures forall i :: 0 <= i < |GuestOptions| ==> GuestOptions[i] == i + 1
  {
  }

  // ---------------------------------------------------------------------
  // Editing the form

  function EditName(st: RsvpState, name: string): (r: RsvpState)
    ensures r.form.name == name
    ensures r.form.guests == st.form.guests && r.form.message == st.form.message
    ensures r.form.attendance == st.form.attendance
    ensures r.messages == st.messages && r.submitted == st.submitted
  {
    st.(form := st.form.(name := name))
  }

  function EditMessage(st: RsvpState, message: string): (r: RsvpState)
    ensures r.form.message == message
    ensures r.form.name == st.form.name && r.form.guests == st.form.guests
    ensures r.form.attendance == st.form.attendance
    ensures r.messages == st.messages && r.submitted == st.submitted
  {
    st.(form := st.form.(message := message))
  }

  /** Choosing "Cannot Attend" keeps the guest count; the selector is only
      disabled. */
  function SelectAttendance(st: RsvpState, a: Attendance): (r: RsvpState)
    ensures r.form.attendance == a
    ensures r.form.name == st.form.name && r.form.guests == st.form.guests
    ensures r.form.message == st.form.message
    ensures r.messages == st.messages && r.submitted == st.submitted
  {
    st.(form := st.form.(attendance := a))
  }

  /** The guests selector is disabled when the visitor cannot attend. */
  predicate GuestsDisabled(f: Form) {
    f.attendance == NotAttending
  }

  /** Choosing a number of guests; only the offered numbers can be chosen,
      and only while the selector is enabled. */
  function SelectGuests(st: RsvpState, n: nat): (r: RsvpState)
    requires n in GuestOptions && !GuestsDisabled(st.form)
    ensures r.form.guests == n && 1 <= n <= 4
    ensures r.form.name == st.form.name && r.form.message == st.form.message
    ensures r.form.attendance == st.form.attendance
    ensures r.messages == st.messages && r.submitted == st.submitted
  {
    st.(form := st.form.(guests := n))
  }

  // ---------------------------------------------------------------------
  // Submitting and resetting

  /** The form can be submitted while it is shown and its two `required`
      fields are non-empty; whitespace counts as content. */
  predicate CanSubmit(st: RsvpState) {
    !st.submitted && Truthy(st.form.name) && Truthy(st.form.message)
  }

  /** `handleSubmit`: the new wish goes in front of the list. `now` is the
      clock reading in milliseconds, whose decimal text is the wish id. */
  function Submit(st: RsvpState, now: nat): (r: RsvpState)
    requires CanSubmit(st)
    ensures |r.messages| == |st.messages| + 1
    ensures r.messages[1..] == st.messages
    ensures r.messages[0].name == st.form.name && r.messages[0].message == st.form.message
    ensures r.messages[0].attendance == st.form.attendance && r.messages[0].date == "Just now"
    ensures AllDigits(r.messages[0].id) && ParseDigits(r.messages[0].id) == now
    ensures r.submitted && r.form == st.form
  {
    ParseNatToString(now);
    var wish := Wish(NatToString(now), st.form.name, st.form.message, "Just now", st.form.attendance);
    RsvpState([wish] + st.messages, st.form, true)
  }

  /** `resetForm`: "Send another message". */
  function Reset(st: RsvpState): (r: RsvpState)
    ensures r.form == Form("", 1, "", Attending)
    ensures !r.submitted && r.messages == st.messages
  {
    RsvpState(st.messages, DefaultForm, false)
  }

  /** The guest count is not part of a wish: two forms that differ only in
      it produce the same list. */
  lemma GuestsNotCarried(st: RsvpState, guests: nat, now: nat)
    requires CanSubmit(st)
    ensures Submit(st, now).messages == Submit(st.(form := st.form.(guests := guests)), now).messages
  {
  }

  /** Writing, submitting and resetting: the list grows by one wish with the
      text written, nothing else in it changes, and the form is empty again
      and can take the next wish. */
  lemma WriteSubmitReset(st: RsvpState, name: string, message: string, now: nat)
    requires !st.submitted && Truthy(name) && Truthy(message)
    ensures var r := Reset(Submit(EditMessage(EditName(st, name), message), now));
      && |r.messages| == |st.messages| + 1
      && r.messages[0].name == name && r.messages[0].message == message
      && r.messages[0].attendance == st.form.attendance
      && r.messages[1..] == st.messages
      && r.form == DefaultForm && !r.submitted
  {
  }

  /** Two wishes in a row: the later one is shown first. */
  lemma NewestFirst(st: RsvpState, now1: nat, now2: nat, name: string, message: string)
    requires CanSubmit(st) && Truthy(name) && Truthy(message)
    ensures var first := Submit(st, now1);
      var second := Submit(EditMessage(EditName(Reset(first), name), message), now2);
      && |second.messages| == |st.messages| + 2
      && second.messages[0].name == name
      && second.messages[1] == first.messages[0]
      && second.messages[2..] == st.messages
  {
  }

  // ---------------------------------------------------------------------
  // What the wish list shows

  /** `{messages.length} Messages` */
  function CountLabel(messages: seq<Wish>): (r: string)
    ensures |r| > 9 && r[|r| - 9..] == " Messages"
    ensures AllDigits(r[..|r| - 9]) && ParseDigits(r[..|r| - 9]) == |messages|
  {
    var n := NatToString(|messages|);
    ParseNatToString(|messages|);
    assert (n + " Messages")[..|n|] == n;
    n + " Messages"
  }

  /** The badge of a wish. */
  function Badge(w: Wish): (r: string)
    ensures r == "Will Attend" <==> w.attendance == Attending
    ensures r == "Cannot Attend" <==> w.attendance == NotAttending
  {
    assert "Will Attend"[0] != "Cannot Attend"[0];
    match w.attendance
    case Attending => "Will Attend"
    case NotAttending => "Cannot Attend"
  }

  /** The label counts the new wish as soon as it is submitted. */
  lemma CountAfterSubmit(st: RsvpState, now: nat)
    requires CanSubmit(st)
    ensures var r := CountLabel(Submit(st, now).messages);
      ParseDigits(r[..|r| - 9]) == ParseDigits(CountLabel(st.messages)[..|CountLabel(st.messages)| - 9]) + 1
  {
    var before := CountLabel(st.messages);
    var after := CountLabel(Submit(st, now).messages);
    assert ParseDigits(before[..|before| - 9]) == |st.messages|;
    assert ParseDigits(after[..|after| - 9]) == |st.messages| + 1;
  }

  lemma InitialCount()
    ensures CountLabel(InitialWishes) == "3 Messages"
  {
    assert NatToString(3) == "3";
  }
}
