/** The display-name check of the name-entry screen: the input is trimmed,
    then four checks run in order and the first that fails is reported. */
module NameInput {
  import opened Text
  import opened Protocol

  datatype NameError = Missing | TooShort | TooLong | InvalidCharacters

  /** Either the trimmed name is passed on to the chat screen, or one error is alerted. */
  datatype Submission = Accepted(name: string) | Rejected(error: NameError)

  const MinLength: nat := 2
  const MaxLength: nat := 50

  /** The text of the alert for each error. The text for `TooLong` says
      "less than 50" although a name of exactly 50 passes. */
  function AlertText(e: NameError): string
  {
    match e
    case Missing => "Please enter your full name"
    case TooShort => "Name must be at least 2 characters long"
    case TooLong => "Name must be less than 50 characters"
    case InvalidCharacters => "Name can only contain letters, spaces, hyphens, and apostrophes"
  }

  /** One character of the class `[a-zA-Z\s\-']`. */
  predicate NameChar(c: char)
  {
    ('a' <= c <= 'z') || ('A' <= c <= 'Z') || IsWhitespace(c) || c == '-' || c == '\''
  }

  /** `/^[a-zA-Z\s\-']+$/.test(s)`. */
  predicate MatchesNamePattern(s: string)
  {
    s != [] && forall i :: 0 <= i < |s| ==> NameChar(s[i])
  }

  /** `handleSubmit`: the ordered chain of checks on the trimmed input. */
  function ValidateName(input: string): (r: Submission)
    ensures var t := Trim(input);
      && (r == Rejected(Missing) <==> t == [])
      && (r == Rejected(TooShort) <==> t != [] && Utf16Length(t) < MinLength)
      && (r == Rejected(TooLong) <==> Utf16Length(t) > MaxLength)
      && (r == Rejected(InvalidCharacters) <==>
            MinLength <= Utf16Length(t) <= MaxLength && !MatchesNamePattern(t))
      && (r.Accepted? <==> MinLength <= Utf16Length(t) <= MaxLength && MatchesNamePattern(t))
    ensures r.Accepted? ==> r.name == Trim(input)
  {
    var t := Trim(input);
    if t == [] then Rejected(Missing)
    else if Utf16Length(t) < MinLength then Rejected(TooShort)
    else if Utf16Length(t) > MaxLength then Rejected(TooLong)
    else if !MatchesNamePattern(t) then Rejected(InvalidCharacters)
    else Accepted(t)
  }

  /** The alert `handleSubmit` shows, or `None` when the name is passed on:
      the text of the first failing check. */
  function SubmitAlert(input: string): (r: Option<string>)
    ensures r.None? <==> ValidateName(input).Accepted?
    ensures r.Some? ==> r.value == AlertText(ValidateName(input).error)
    ensures r == Some("Please enter your full name") <==> Trim(input) == []
    ensures r == Some("Name must be at least 2 characters long") <==>
      Trim(input) != [] && Utf16Length(Trim(input)) < MinLength
    ensures r == Some("Name must be less than 50 characters") <==> Utf16Length(Trim(input)) > MaxLength
  {
    match ValidateName(input)
    case Accepted(_) => None
    case Rejected(e) => Some(AlertText(e))
  }

  /** Every accepted name is 2 to 50 characters long, made only of allowed
      characters, and has no whitespace at either end. */
  lemma AcceptedNameShape(input: string)
    requires ValidateName(input).Accepted?
    ensures var name := ValidateName(input).name;
      && MinLength <= |name| <= MaxLength
      && (forall i :: 0 <= i < |name| ==> NameChar(name[i]))
      && !IsWhitespace(name[0]) && !IsWhitespace(name[|name| - 1])
  {
    var name := ValidateName(input).name;
    assert forall i :: 0 <= i < |name| ==> name[i] as int < 0x1_0000 by {
      forall i | 0 <= i < |name| ensures name[i] as int < 0x1_0000 {
        assert NameChar(name[i]);
      }
    }
  }

  /** Submitting an accepted name again accepts the same name. */
  lemma AcceptedNameRevalidates(input: string)
    requires ValidateName(input).Accepted?
    ensures ValidateName(ValidateName(input).name) == ValidateName(input)
  {
    TrimIdempotent(input);
  }

  /** The verdict depends only on the trimmed input: whitespace typed before
      or after the name never changes it. */
  lemma ValidateIgnoresPadding(input: string, c: char)
    requires IsWhitespace(c)
    ensures ValidateName([c] + input) == ValidateName(input)
    ensures ValidateName(input + [c]) == ValidateName(input)
  {
    TrimPadStart(input, c);
    TrimPadEnd(input, c);
  }
}
