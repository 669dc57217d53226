/**
 * The container-name validator used while a user is typing the name of
 * the container to act on: trim, then test the pattern
 * ^[a-zA-Z0-9][a-zA-Z0-9_.-]{0,127}$ (written here as character predicates).
 */
module Validation {
  import opened Wrappers
  import opened Text

  const MaxNameLength: nat := 128

  const ErrEmpty: string := "不能为空"
  const ErrPattern: string := "仅允许字母数字及 . _ - ，且长度≤128"

  predicate AsciiAlnum(c: char) {
    'a' <= c <= 'z' || 'A' <= c <= 'Z' || '0' <= c <= '9'
  }

  predicate NameChar(c: char) {
    AsciiAlnum(c) || c == '_' || c == '.' || c == '-'
  }

  /** The container-name pattern: an ASCII alphanumeric, then up to 127 of [a-zA-Z0-9_.-]. */
  predicate IsContainerName(s: string) {
    1 <= |s| <= MaxNameLength && AsciiAlnum(s[0]) && forall i :: 1 <= i < |s| ==> NameChar(s[i])
  }

  /** ValidateContainerName: the trimmed input if it matches the pattern, else an error text. */
  function ValidateContainerName(input: string): (r: Result<string, string>)
    ensures r.Ok? <==> IsContainerName(TrimSpace(input))
    ensures r.Ok? ==> r.value == TrimSpace(input)
    ensures r.Err? && TrimSpace(input) == [] ==> r.error == ErrEmpty
    ensures r.Err? && TrimSpace(input) != [] ==> r.error == ErrPattern
  {
    var name := TrimSpace(input);
    if name == "" then Err(ErrEmpty)
    else if !IsContainerName(name) then Err(ErrPattern)
    else Ok(name)
  }

  /** An accepted name contains no white space, so trimming leaves it alone. */
  lemma ContainerNameIsTrimmed(s: string)
    requires IsContainerName(s)
    ensures TrimSpace(s) == s
  {
    assert !IsSpace(s[0]) && !IsSpace(s[|s| - 1]);
    TrimSpaceOfTrimmed(s);
  }

  /** The validator is idempotent: an accepted name validates to itself. */
  lemma ValidateIdempotent(input: string)
    requires ValidateContainerName(input).Ok?
    ensures ValidateContainerName(ValidateContainerName(input).value) == ValidateContainerName(input)
  {
    ContainerNameIsTrimmed(TrimSpace(input));
  }

  /** Blank input is rejected as empty. */
  lemma BlankRejected(input: string)
    requires IsBlank(input)
    ensures ValidateContainerName(input) == Err(ErrEmpty)
  {
  }

  /** A '/' anywhere in the trimmed input is rejected. */
  lemma SlashRejected(input: string, i: nat)
    requires i < |TrimSpace(input)| && TrimSpace(input)[i] == '/'
    ensures ValidateContainerName(input) == Err(ErrPattern)
  {
  }

  /** A leading '-' is rejected. */
  lemma LeadingDashRejected(input: string)
    requires TrimSpace(input) != [] && TrimSpace(input)[0] == '-'
    ensures ValidateContainerName(input) == Err(ErrPattern)
  {
  }

  /** Any non-ASCII character left after trimming is rejected. */
  lemma NonAsciiRejected(input: string, i: nat)
    requires i < |TrimSpace(input)| && TrimSpace(input)[i] as int >= 128
    ensures ValidateContainerName(input) == Err(ErrPattern)
  {
    var name := TrimSpace(input);
    assert !NameChar(name[i]) && !AsciiAlnum(name[i]);
    assert !IsContainerName(name);
  }

  /** The length bound is exact: 128 characters pass, 129 do not. */
  lemma LengthBoundIsExact(s: string)
    requires |s| >= 2 && AsciiAlnum(s[0]) && forall i :: 1 <= i < |s| ==> NameChar(s[i])
    ensures ValidateContainerName(s).Ok? <==> |s| <= MaxNameLength
  {
    assert !IsSpace(s[0]) && !IsSpace(s[|s| - 1]);
    TrimSpaceOfTrimmed(s);
  }
}
