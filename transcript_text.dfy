/**
 * The clean-up applied to each transcription result (transcriber.py): Python's
 * str.strip(), dropping an empty result, and replacing every newline with a space.
 */
module TranscriptText {
  import opened Common

  /** The characters Python's str.isspace() accepts, which str.strip() removes. */
  predicate IsSpace(c: char) {
    || ('\t' <= c <= '\r')
    || ('\U{1C}' <= c <= '\U{1F}')
    || c == ' '
    || c == '\U{85}'
    || c == '\U{A0}'
    || c == '\U{1680}'
    || ('\U{2000}' <= c <= '\U{200A}')
    || c == '\U{2028}'
    || c == '\U{2029}'
    || c == '\U{202F}'
    || c == '\U{205F}'
    || c == '\U{3000}'
  }

  predicate AllSpace(s: string) {
    forall k :: 0 <= k < |s| ==> IsSpace(s[k])
  }

  /** The number of whitespace characters s starts with. */
  function LeadingSpace(s: string): (n: nat)
    ensures n <= |s|
    ensures forall k :: 0 <= k < n ==> IsSpace(s[k])
    ensures n < |s| ==> !IsSpace(s[n])
    decreases |s|
  {
    if s != [] && IsSpace(s[0]) then 1 + LeadingSpace(s[1..]) else 0
  }

  /** The number of whitespace characters s ends with. */
  function TrailingSpace(s: string): (n: nat)
    ensures n <= |s|
    ensures forall k :: |s| - n <= k < |s| ==> IsSpace(s[k])
    ensures n < |s| ==> !IsSpace(s[|s| - 1 - n])
    decreases |s|
  {
    if s != [] && IsSpace(s[|s| - 1]) then 1 + TrailingSpace(s[..|s| - 1]) else 0
  }

  /** str.strip(): cut the leading and the trailing whitespace; whitespace only gives "". */
  function Strip(s: string): string {
    var i := LeadingSpace(s);
    if i == |s| then [] else s[i..|s| - TrailingSpace(s)]
  }

  /**
   * Strip removes exactly the whitespace at both ends: the result is a slice of s,
   * everything cut off is whitespace, and a non-empty result starts and ends with
   * something else.
   */
  lemma StripSlice(s: string) returns (i: nat, j: nat)
    ensures i <= j <= |s| && Strip(s) == s[i..j]
    ensures forall k :: 0 <= k < i ==> IsSpace(s[k])
    ensures forall k :: j <= k < |s| ==> IsSpace(s[k])
    ensures i < j ==> !IsSpace(s[i]) && !IsSpace(s[j - 1])
  {
    i := LeadingSpace(s);
    if i == |s| {
      j := i;
    } else {
      j := |s| - TrailingSpace(s);
    }
  }

  /** The result is empty exactly when the input is all whitespace. */
  lemma StripEmptyIffAllSpace(s: string)
    ensures Strip(s) == [] <==> AllSpace(s)
  {
    var i, j := StripSlice(s);
    if Strip(s) != [] {
      assert !IsSpace(s[i]);
    }
  }

  /** A non-empty stripped text starts and ends with a non-whitespace character. */
  lemma StripTrimmed(s: string)
    ensures Strip(s) != [] ==> !IsSpace(Strip(s)[0]) && !IsSpace(Strip(s)[|Strip(s)| - 1])
  {
    var i, j := StripSlice(s);
  }

  /** A string without whitespace at either end is left unchanged. */
  lemma StripKeepsTrimmed(s: string)
    requires s != [] ==> !IsSpace(s[0]) && !IsSpace(s[|s| - 1])
    ensures Strip(s) == s
  {
    if s != [] {
      assert LeadingSpace(s) == 0 && TrailingSpace(s) == 0;
      assert s[0..|s|] == s;
    }
  }

  /** Stripping twice is stripping once. */
  lemma StripIdempotent(s: string)
    ensures Strip(Strip(s)) == Strip(s)
  {
    var i, j := StripSlice(s);
    StripKeepsTrimmed(Strip(s));
  }

  /** text.replace('\n', ' '). */
  function ReplaceNewlines(s: string): (r: string)
    ensures |r| == |s| && '\n' !in r
    ensures forall k :: 0 <= k < |s| ==> r[k] == (if s[k] == '\n' then ' ' else s[k])
  {
    seq(|s|, k requires 0 <= k < |s| => if s[k] == '\n' then ' ' else s[k])
  }

  /**
   * A transcription result after clean-up: None when it is empty or whitespace only;
   * otherwise the stripped text with newlines turned into spaces.
   */
  function Clean(raw: string): (r: Option<string>)
    ensures r.None? <==> AllSpace(raw)
    ensures r.Some? ==> r.value != [] && '\n' !in r.value
    ensures r.Some? ==> !IsSpace(r.value[0]) && !IsSpace(r.value[|r.value| - 1])
    ensures r.Some? ==> |r.value| == |Strip(raw)|
    ensures r.Some? ==> forall k :: 0 <= k < |r.value| ==>
      r.value[k] == (if Strip(raw)[k] == '\n' then ' ' else Strip(raw)[k])
  {
    StripEmptyIffAllSpace(raw);
    StripTrimmed(raw);
    var text := Strip(raw);
    if text == [] then None else Some(ReplaceNewlines(text))
  }

  /** Text without newlines is left unchanged by the replacement. */
  lemma ReplaceNewlinesKeeps(s: string)
    requires '\n' !in s
    ensures ReplaceNewlines(s) == s
  {
    var r := ReplaceNewlines(s);
    forall k | 0 <= k < |s| ensures r[k] == s[k] {
      assert s[k] in s;
    }
  }

  /** Cleaned text is a fixed point: cleaning it again yields it unchanged. */
  lemma CleanIdempotent(raw: string)
    requires Clean(raw).Some?
    ensures Clean(Clean(raw).value) == Clean(raw)
  {
    var c := Clean(raw).value;
    StripKeepsTrimmed(c);
    ReplaceNewlinesKeeps(c);
  }
}
