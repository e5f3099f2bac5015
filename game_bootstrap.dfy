/** The start-up screen (`GameBootstrap`): the player-name check that enables
    the connect button, and the sanitiser that turns a device name into a
    profile name.

    A C# string is a sequence of UTF-16 code units, and `Length` counts units:
    a character outside the Basic Multilingual Plane is two of them (a surrogate
    pair). `Utf16Length` gives that count for the model's strings of characters.
    The sanitiser tests each code unit with `char.IsLetterOrDigit`, the parameter
    `isLetterOrDigit` here, which applies to single code units; a surrogate is
    never a letter or digit, so a character outside the Basic Multilingual Plane
    never survives. */
module Bootstrap {
  import opened Wrappers
  import opened Seqs

  /** The fallback profile name. */
  const DefaultProfileName: string := "Player"

  /** Whether a character is one UTF-16 code unit (it lies in the Basic Multilingual Plane). */
  predicate IsSingleUnit(c: char)
  {
    (c as int) < 0x1_0000
  }

  /** C#'s `string.Length`: one UTF-16 code unit per character of the Basic
      Multilingual Plane, two per character outside it. */
  function Utf16Length(s: string): (n: nat)
    ensures |s| <= n <= 2 * |s|
    ensures n == |s| <==> forall i :: 0 <= i < |s| ==> IsSingleUnit(s[i])
  {
    if s == [] then 0
    else
      var rest := Utf16Length(s[1..]);
      assert forall i :: 1 <= i < |s| ==> s[i] == s[1..][i - 1];
      (if IsSingleUnit(s[0]) then 1 else 2) + rest
  }

  /** One emoji is a single character but two code units, so a name made of one emoji
      passes the two-character minimum, and six emoji (twelve units) are the most a
      name may hold. */
  lemma EmojiNameLength()
    ensures |"\U{1F600}"| == 1 && Utf16Length("\U{1F600}") == 2
    ensures Utf16Length("\U{1F600}\U{1F600}\U{1F600}\U{1F600}\U{1F600}\U{1F600}\U{1F600}") == 14
  {
  }

  /** The characters a profile name may hold: a code unit that is a letter or digit, or '_'. */
  function ProfileChar(isLetterOrDigit: char -> bool): char -> bool
  {
    c => (IsSingleUnit(c) && isLetterOrDigit(c)) || c == '_'
  }

  /** `SanitizeProfileName(input, maxLength)`: null or empty input gives "Player" as it is;
      otherwise keep the profile characters, fall back to "Player" when none is left,
      and cut the result to `maxLength` characters. */
  function SanitizedProfileName(input: Option<string>, maxLength: int, isLetterOrDigit: char -> bool): (r: string)
    requires input.Some? && input.value != [] ==> 0 <= maxLength
    ensures input.None? || input.value == [] ==> r == DefaultProfileName
    ensures input.Some? && input.value != [] ==> |r| <= maxLength && (1 <= maxLength ==> r != [])
  {
    if input.None? || input.value == [] then DefaultProfileName
    else
      var kept := Filter(input.value, ProfileChar(isLetterOrDigit));
      var result := if kept == [] then DefaultProfileName else kept;
      if |result| > maxLength then result[..maxLength] else result
  }

  /** What the sanitiser promises:
      - null or empty input gives "Player", whatever `maxLength` is;
      - otherwise the result has at most `maxLength` characters;
      - when some character survives, the result is the longest prefix of the
        surviving characters that fits, holds only profile characters and keeps
        their original order;
      - when none survives, the result is "Player" cut to `maxLength`. */
  lemma SanitizedProfileNameProperties(input: Option<string>, maxLength: int, isLetterOrDigit: char -> bool)
    requires input.Some? && input.value != [] ==> 0 <= maxLength
    ensures input.None? || input.value == [] ==> SanitizedProfileName(input, maxLength, isLetterOrDigit) == DefaultProfileName
    ensures input.Some? && input.value != [] ==> |SanitizedProfileName(input, maxLength, isLetterOrDigit)| <= maxLength
    ensures input.Some? && input.value != [] ==>
      var r := SanitizedProfileName(input, maxLength, isLetterOrDigit);
      var kept := Filter(input.value, ProfileChar(isLetterOrDigit));
      kept != [] ==>
        && r == kept[..Min(|kept|, maxLength)]
        && (forall i :: 0 <= i < |r| ==> ProfileChar(isLetterOrDigit)(r[i]))
        && IsSubsequence(r, input.value)
    ensures input.Some? && input.value != [] ==>
      var kept := Filter(input.value, ProfileChar(isLetterOrDigit));
      kept == [] ==>
        SanitizedProfileName(input, maxLength, isLetterOrDigit) == DefaultProfileName[..Min(|DefaultProfileName|, maxLength)]
  {
    if input.Some? && input.value != [] {
      var kept := Filter(input.value, ProfileChar(isLetterOrDigit));
      if kept != [] {
        FilterProperties(input.value, ProfileChar(isLetterOrDigit));
        FilterIsSubsequence(input.value, ProfileChar(isLetterOrDigit));
        SubsequencePrefix(kept, input.value, Min(|kept|, maxLength));
        assert kept[..|kept|] == kept;
      }
    }
  }

  /** "Player" is made of letters, so it survives the filter. */
  predicate AcceptsDefaultName(isLetterOrDigit: char -> bool)
  {
    forall i :: 0 <= i < |DefaultProfileName| ==> isLetterOrDigit(DefaultProfileName[i])
  }

  /** Every character of "Player" and of its prefixes is a profile character. */
  lemma DefaultNameKept(isLetterOrDigit: char -> bool, n: nat)
    requires AcceptsDefaultName(isLetterOrDigit) && n <= |DefaultProfileName|
    ensures forall i :: 0 <= i < n ==> ProfileChar(isLetterOrDigit)(DefaultProfileName[..n][i])
  {
    forall i | 0 <= i < n ensures ProfileChar(isLetterOrDigit)(DefaultProfileName[..n][i]) {
      assert DefaultProfileName[..n][i] == DefaultProfileName[i];
      assert IsSingleUnit(DefaultProfileName[i]);
    }
  }

  /** Sanitising a sanitised name changes nothing, when the limit leaves room for
      "Player", or the input was not empty and the limit is at least 1. */
  lemma SanitizeIdempotent(input: Option<string>, maxLength: int, isLetterOrDigit: char -> bool)
    requires AcceptsDefaultName(isLetterOrDigit)
    requires |DefaultProfileName| <= maxLength || (input.Some? && input.value != [] && 1 <= maxLength)
    ensures var once := SanitizedProfileName(input, maxLength, isLetterOrDigit);
      SanitizedProfileName(Some(once), maxLength, isLetterOrDigit) == once
  {
    var keep := ProfileChar(isLetterOrDigit);
    var once := SanitizedProfileName(input, maxLength, isLetterOrDigit);
    SanitizedProfileNameProperties(input, maxLength, isLetterOrDigit);
    assert once != [] && |once| <= maxLength;
    if input.Some? && input.value != [] && Filter(input.value, keep) != [] {
      assert forall i :: 0 <= i < |once| ==> keep(once[i]);
    } else {
      var n := Min(|DefaultProfileName|, maxLength);
      assert once == DefaultProfileName[..n];
      DefaultNameKept(isLetterOrDigit, n);
    }
    FilterProperties(once, keep);
    assert Filter(once, keep) == once;
  }

  /** Without room for "Player", the empty input is where idempotence stops: with a
      limit of 3 the first pass gives "Player" and the second "Pla". */
  lemma SanitizeShortLimitOnEmpty(isLetterOrDigit: char -> bool)
    requires AcceptsDefaultName(isLetterOrDigit)
    ensures SanitizedProfileName(None, 3, isLetterOrDigit) == "Player"
    ensures SanitizedProfileName(Some("Player"), 3, isLetterOrDigit) == "Pla"
  {
    var keep := ProfileChar(isLetterOrDigit);
    assert forall i :: 0 <= i < |DefaultProfileName| ==> keep(DefaultProfileName[i]);
    FilterProperties(DefaultProfileName, keep);
  }

  /** The characters the sanitiser's documentation lists: a-z, A-Z and 0-9. */
  predicate IsAsciiLetterOrDigit(c: char)
  {
    ('a' <= c <= 'z') || ('A' <= c <= 'Z') || ('0' <= c <= '9')
  }

  /** As written the sanitiser keeps whatever `char.IsLetterOrDigit` accepts, and that
      test accepts 'é': the name "é" comes back unchanged, although 'é' is not among
      the characters the sanitiser's documentation allows. */
  lemma SanitizeKeepsNonAscii(isLetterOrDigit: char -> bool)
    requires isLetterOrDigit('é')
    ensures !IsAsciiLetterOrDigit('é') && 'é' != '_'
    ensures SanitizedProfileName(Some("é"), 20, isLetterOrDigit) == "é"
  {
    assert ProfileChar(isLetterOrDigit)("é"[0]);
    assert Filter("é", ProfileChar(isLetterOrDigit)) == "é";
  }

  /** The sanitiser as documented: only a-z, A-Z, 0-9 and '_' survive. Every character
      of its result is one of those, the result fits the limit, and it keeps the
      surviving characters in order. */
  function AsciiProfileName(input: Option<string>, maxLength: int): (r: string)
    requires input.Some? && input.value != [] ==> 0 <= maxLength
    ensures forall i :: 0 <= i < |r| ==> IsAsciiLetterOrDigit(r[i]) || r[i] == '_'
    ensures input.Some? && input.value != [] ==> |r| <= maxLength
    ensures input.Some? && input.value != [] ==>
      IsSubsequence(r, input.value) || (|r| <= |DefaultProfileName| && r == DefaultProfileName[..|r|])
  {
    SanitizedProfileNameProperties(input, maxLength, IsAsciiLetterOrDigit);
    var r := SanitizedProfileName(input, maxLength, IsAsciiLetterOrDigit);
    assert forall i :: 0 <= i < |DefaultProfileName| ==> IsAsciiLetterOrDigit(DefaultProfileName[i]);
    r
  }

  class GameBootstrap {
    /** Whether the connect button accepts clicks. */
    var connectInteractable: bool

    /** The start-up screen begins with the button disabled. */
    constructor ()
      ensures !connectInteractable
    {
      connectInteractable := false;
    }

    /** The connect button is enabled exactly for names of 2 to 12 UTF-16 code units. */
    method ValidateName(name: string)
      modifies this`connectInteractable
      ensures connectInteractable <==> 2 <= Utf16Length(name) <= 12
    {
      var length := Utf16Length(name);
      var isValid := length >= 2 && length <= 12;
      connectInteractable := isValid;
    }

    /** The sanitiser's loop: append each profile character, then fall back and cut. */
    static method SanitizeProfileName(input: Option<string>, maxLength: int, isLetterOrDigit: char -> bool)
      returns (result: string)
      requires input.Some? && input.value != [] ==> 0 <= maxLength
      ensures result == SanitizedProfileName(input, maxLength, isLetterOrDigit)
    {
      if input.None? || input.value == [] {
        return DefaultProfileName;
      }
      var s := input.value;
      var keep := ProfileChar(isLetterOrDigit);
      var sb: string := [];
      var k := 0;
      while k < |s|
        invariant 0 <= k <= |s|
        invariant sb == Filter(s[..k], keep)
      {
        var c := s[k];
        FilterAppend(s[..k], [c], keep);
        assert s[..k + 1] == s[..k] + [c];
        if (IsSingleUnit(c) && isLetterOrDigit(c)) || c == '_' {
          sb := sb + [c];
        }
        k := k + 1;
      }
      assert s[..k] == s;
      result := sb;
      if result == [] {
        result := DefaultProfileName;
      }
      if |result| > maxLength {
        result := result[..maxLength];
      }
    }
  }
}
