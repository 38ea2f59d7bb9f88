/** The cross-field rule of the event form: the event name, trimmed, must be at least three characters. */
module Forms {
  import opened Wrappers
  import opened Text

  const MinNameLength: nat := 3
  const NameTooShort: string := "Event name must be at least 3 characters."

  /** `EventForm.clean_name`. `submitted` is the form's cleaned `name`; `None` stands for
      cleaned data without a `name` key, for which `.get("name", "")` uses the empty string. */
  function CleanName(submitted: Option<string>): (r: Result<string, string>)
    ensures r.Success? <==> |Strip(submitted.GetOr(""))| >= MinNameLength
    ensures r.Success? ==> IsStripOf(r.value, submitted.GetOr("")) && |r.value| >= MinNameLength
    ensures r.Success? ==> Trimmed(r.value)
    ensures r.Failure? ==> r.error == NameTooShort
  {
    var name := Strip(submitted.GetOr(""));
    if |name| < MinNameLength then Failure(NameTooShort) else Success(name)
  }

  /** A missing name is rejected, as is a name made only of whitespace. */
  lemma CleanNameRejectsBlank(submitted: Option<string>)
    requires submitted.None? || AllSpace(submitted.value)
    ensures CleanName(submitted) == Failure(NameTooShort)
  {
    if submitted.Some? {
      StripAllSpace(submitted.value);
    }
  }

  /** Cleaning an accepted name again accepts it unchanged. */
  lemma CleanNameIdempotent(submitted: Option<string>)
    requires CleanName(submitted).Success?
    ensures CleanName(Some(CleanName(submitted).value)) == CleanName(submitted)
  {
    StripIdempotent(submitted.GetOr(""));
  }

  /** A worked example: a two-letter name is rejected with the form's message. */
  lemma TwoLetterNameRejected()
    ensures CleanName(Some("AB")) == Failure(NameTooShort)
  {
    assert Trimmed("AB");
    StripTrimmed("AB");
  }

  /** A worked example: surrounding blanks are cut off an accepted name. */
  lemma PaddedNameTrimmed()
    ensures CleanName(Some(" Jazz ")) == Success("Jazz")
  {
    var s := " Jazz ";
    assert s[1..5] == "Jazz";
    assert AllSpace(s[..1]) && AllSpace(s[5..]);
    assert Trimmed("Jazz");
    assert StripsAt("Jazz", s, 1, 5);
    StripIsStripOf("Jazz", s);
  }
}
