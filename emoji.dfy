/**
  `remove_emojis` from src/utils.py: a regular-expression substitution that
  deletes every character in seven fixed code-point ranges, followed by
  `str.strip()`.
 */
module Emoji {
  import opened Text

  /** The seven ranges of the character class, in the order the pattern lists them. */
  predicate InEmojiRange(c: char) {
    var n := c as int;
    || (0x1F600 <= n <= 0x1F64F)  // emoticons
    || (0x1F300 <= n <= 0x1F5FF)  // miscellaneous symbols and pictographs
    || (0x1F680 <= n <= 0x1F6FF)  // transport and map
    || (0x1F1E0 <= n <= 0x1F1FF)  // regional indicators (flags)
    || (0x2700 <= n <= 0x27BF)    // dingbats
    || (0x2600 <= n <= 0x26FF)    // miscellaneous symbols
    || (0x1F900 <= n <= 0x1F9FF)  // supplemental symbols and pictographs
  }

  /** No emoji-range character is whitespace, so stripping and filtering commute. */
  lemma EmojiIsNotSpace(c: char)
    requires InEmojiRange(c)
    ensures !IsSpace(c)
  {
  }

  /**
    Replacing every run of in-range characters by the empty string: the
    characters outside the ranges, in their original order.
   */
  function DropEmojis(s: string): (r: string)
    ensures |r| <= |s|
  {
    if s == [] then []
    else if InEmojiRange(s[0]) then DropEmojis(s[1..])
    else [s[0]] + DropEmojis(s[1..])
  }

  /** A character is in the filtered text exactly when it was in the input and lies outside the ranges. */
  lemma {:induction false} DropEmojisMembers(s: string, c: char)
    ensures c in DropEmojis(s) <==> c in s && !InEmojiRange(c)
  {
    if s != [] {
      DropEmojisMembers(s[1..], c);
      assert c in s <==> c == s[0] || c in s[1..];
    }
  }

  /** `emoji_pattern.sub('', text).strip()` */
  function RemoveEmojis(s: string): (r: string)
  {
    Strip(DropEmojis(s))
  }

  /** A string free of in-range characters passes the filter unchanged. */
  lemma {:induction false} DropEmojisUnchanged(s: string)
    requires forall i :: 0 <= i < |s| ==> !InEmojiRange(s[i])
    ensures DropEmojis(s) == s
  {
    if s != [] {
      DropEmojisUnchanged(s[1..]);
    }
  }

  /** No character of the result lies in any of the seven ranges. */
  lemma RemoveEmojisHasNoEmoji(s: string)
    ensures forall c :: c in RemoveEmojis(s) ==> !InEmojiRange(c)
  {
    forall c | c in RemoveEmojis(s) ensures !InEmojiRange(c) {
      StripOnlyDrops(DropEmojis(s), c);
      DropEmojisMembers(s, c);
    }
  }

  /**
    Exactly the listed ranges are removed: a character outside them that is not
    whitespace survives, whatever plane it lies in.
   */
  lemma RemoveEmojisKeeps(s: string, c: char)
    requires c in s && !InEmojiRange(c) && !IsSpace(c)
    ensures c in RemoveEmojis(s)
  {
    DropEmojisMembers(s, c);
    StripKeeps(DropEmojis(s), c);
  }

  /** The function is described as removing every non-BMP character; U+1D11E survives it. */
  lemma NonBmpCharacterSurvives()
    ensures RemoveEmojis("a\U{1D11E}") == "a\U{1D11E}"
  {
    DropEmojisUnchanged("a\U{1D11E}");
    StripUnchanged("a\U{1D11E}");
  }

  /** An emoji at the end is removed together with the space before it. */
  lemma TrailingEmojiRemoved()
    ensures RemoveEmojis("gg \U{1F600}") == "gg"
  {
    assert DropEmojis("gg \U{1F600}") == "gg ";
  }

  lemma RemoveEmojisNotLonger(s: string)
    ensures |RemoveEmojis(s)| <= |s|
  {
  }

  /** Applying the function twice is the same as applying it once. */
  lemma RemoveEmojisIdempotent(s: string)
    ensures RemoveEmojis(RemoveEmojis(s)) == RemoveEmojis(s)
  {
    var r := RemoveEmojis(s);
    RemoveEmojisHasNoEmoji(s);
    DropEmojisUnchanged(r);
    StripIdempotent(DropEmojis(s));
  }

  /** A string with no in-range character and no surrounding whitespace is returned as is. */
  lemma RemoveEmojisUnchanged(s: string)
    requires forall i :: 0 <= i < |s| ==> !InEmojiRange(s[i])
    requires s == [] || (!IsSpace(s[0]) && !IsSpace(s[|s| - 1]))
    ensures RemoveEmojis(s) == s
  {
    DropEmojisUnchanged(s);
    StripUnchanged(s);
  }
}
