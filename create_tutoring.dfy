/**
 * The create-tutor-profile dialog: a form whose subject list, availability
 * choices and language choices are edited by button handlers, and a submit
 * that resets the whole form.
 */
module CreateTutoring {

  import opened Common

  /** The list after `includes(x) ? filter(e => e !== x) : [...list, x]`. */
  function ToggleEntry(list: seq<string>, x: string): (r: seq<string>)
    ensures x in r <==> x !in list
    ensures forall y :: y != x ==> (y in r <==> y in list)
    ensures x !in list ==> r == list + [x]
  {
    if x in list then RemoveAll(list, x) else list + [x]
  }

  /** A toggle keeps a list free of duplicates. */
  lemma ToggleEntryKeepsNoDuplicates(list: seq<string>, x: string)
    requires NoDuplicates(list)
    ensures NoDuplicates(ToggleEntry(list, x))
  {
    if x in list {
      RemoveAllKeepsNoDuplicates(list, x);
    }
  }

  /** Toggling the same entry twice restores its membership and leaves the
      others' untouched; starting from a list without it, the list comes back exactly. */
  lemma ToggleEntryTwice(list: seq<string>, x: string)
    ensures forall y :: y in ToggleEntry(ToggleEntry(list, x), x) <==> y in list
    ensures x !in list ==> ToggleEntry(ToggleEntry(list, x), x) == list
  {
    if x !in list {
      RemoveAllAppended(list, x);
    }
  }

  lemma {:induction false} RemoveAllAppended(list: seq<string>, x: string)
    requires x !in list
    ensures RemoveAll(list + [x], x) == list
  {
    if list == [] {
      assert [] + [x] == [x];
      assert RemoveAll([x], x) == [] + RemoveAll([x][1..], x);
    } else {
      assert (list + [x])[1..] == list[1..] + [x];
      RemoveAllAppended(list[1..], x);
      assert list == [list[0]] + list[1..];
    }
  }

  /** A subject as addSubject stores it: non-empty, no white space at either end. */
  predicate IsTrimmedText(s: string) {
    s != [] && !IsWhitespace(s[0]) && !IsWhitespace(s[|s| - 1])
  }

  /** addSubject's guard: the trimmed input is non-empty and not listed yet. */
  predicate SubjectAccepted(subjects: seq<string>, input: string) {
    Trim(input) != "" && Trim(input) !in subjects
  }

  /** Appending an accepted subject keeps the list free of duplicates and of untrimmed entries. */
  lemma AcceptedSubjectKeepsValid(subjects: seq<string>, input: string)
    requires NoDuplicates(subjects) && forall s :: s in subjects ==> IsTrimmedText(s)
    requires SubjectAccepted(subjects, input)
    ensures NoDuplicates(subjects + [Trim(input)])
    ensures forall s :: s in subjects + [Trim(input)] ==> IsTrimmedText(s)
  {
    TrimIsTrimmed(input);
    AppendFreshNoDuplicates(subjects, Trim(input));
  }

  datatype TextField = NewSubject | HourlyRate | Location | Description | Experience

  /** The dialog's `formData` state object. */
  datatype FormData = FormData(
    subjects: seq<string>,
    newSubject: string,
    hourlyRate: string,
    location: string,
    description: string,
    experience: string,
    availability: seq<string>,
    languages: seq<string>)

  const EmptyForm: FormData := FormData([], "", "", "", "", "", [], [])

  /** What the handlers maintain: no list holds an entry twice, and every
      subject is trimmed and non-empty. */
  predicate ValidForm(f: FormData) {
    && NoDuplicates(f.subjects)
    && (forall s :: s in f.subjects ==> IsTrimmedText(s))
    && NoDuplicates(f.availability)
    && NoDuplicates(f.languages)
  }

  /** handleChange: one text field takes the typed value. */
  function WithField(f: FormData, field: TextField, value: string): (r: FormData)
    ensures r.subjects == f.subjects && r.availability == f.availability && r.languages == f.languages
    ensures field == NewSubject ==> r == f.(newSubject := value)
    ensures field == HourlyRate ==> r == f.(hourlyRate := value)
    ensures field == Location ==> r == f.(location := value)
    ensures field == Description ==> r == f.(description := value)
    ensures field == Experience ==> r == f.(experience := value)
  {
    match field
    case NewSubject => f.(newSubject := value)
    case HourlyRate => f.(hourlyRate := value)
    case Location => f.(location := value)
    case Description => f.(description := value)
    case Experience => f.(experience := value)
  }

  class CreateTutoringDialog {
    var formData: FormData
    var isSubmitting: bool
    var open: bool

    predicate Valid()
      reads this
    {
      ValidForm(formData)
    }

    constructor (open: bool)
      ensures formData == EmptyForm && Valid()
      ensures !isSubmitting && this.open == open
    {
      formData := EmptyForm;
      isSubmitting := false;
      this.open := open;
    }

    method HandleChange(field: TextField, value: string)
      requires Valid()
      modifies this
      ensures Valid()
      ensures formData == WithField(old(formData), field, value)
      ensures isSubmitting == old(isSubmitting) && open == old(open)
    {
      formData := WithField(formData, field, value);
    }

    /** addSubject: the trimmed input is appended, and the input cleared, only
        when it is non-empty and not yet listed; otherwise nothing changes. */
    method AddSubject()
      requires Valid()
      modifies this
      ensures Valid()
      ensures SubjectAccepted(old(formData.subjects), old(formData.newSubject)) ==>
                formData == old(formData).(subjects := old(formData.subjects) + [Trim(old(formData.newSubject))], newSubject := "")
      ensures !SubjectAccepted(old(formData.subjects), old(formData.newSubject)) ==>
                formData == old(formData)
      ensures isSubmitting == old(isSubmitting) && open == old(open)
    {
      if SubjectAccepted(formData.subjects, formData.newSubject) {
        AcceptedSubjectKeepsValid(formData.subjects, formData.newSubject);
        formData := formData.(subjects := formData.subjects + [Trim(formData.newSubject)], newSubject := "");
      }
    }

    /** removeSubject: drops that subject, keeping the others in order. */
    method RemoveSubject(subject: string)
      requires Valid()
      modifies this
      ensures Valid()
      ensures formData == old(formData).(subjects := RemoveAll(old(formData.subjects), subject))
      ensures subject !in formData.subjects
      ensures isSubmitting == old(isSubmitting) && open == old(open)
    {
      RemoveAllKeepsNoDuplicates(formData.subjects, subject);
      formData := formData.(subjects := RemoveAll(formData.subjects, subject));
    }

    method ToggleAvailability(slot: string)
      requires Valid()
      modifies this
      ensures Valid()
      ensures formData == old(formData).(availability := ToggleEntry(old(formData.availability), slot))
      ensures isSubmitting == old(isSubmitting) && open == old(open)
    {
      ToggleEntryKeepsNoDuplicates(formData.availability, slot);
      formData := formData.(availability := ToggleEntry(formData.availability, slot));
    }

    method ToggleLanguage(language: string)
      requires Valid()
      modifies this
      ensures Valid()
      ensures formData == old(formData).(languages := ToggleEntry(old(formData.languages), language))
      ensures isSubmitting == old(isSubmitting) && open == old(open)
    {
      ToggleEntryKeepsNoDuplicates(formData.languages, language);
      formData := formData.(languages := ToggleEntry(formData.languages, language));
    }

    /** The submit button is disabled while submitting or while no subject is listed. */
    function SubmitDisabled(): (r: bool)
      reads this
      ensures |formData.subjects| == 0 ==> r
      ensures !isSubmitting ==> (r <==> formData.subjects == [])
    {
      isSubmitting || |formData.subjects| == 0
    }

    /** handleSubmit once the (simulated) request is over: every field is
        reset, the spinner stops and the dialog closes. */
    method HandleSubmit()
      modifies this
      ensures formData == EmptyForm && Valid()
      ensures !isSubmitting && !open
      ensures SubmitDisabled()
    {
      isSubmitting := true;
      formData := EmptyForm;
      isSubmitting := false;
      open := false;
    }
  }
}
