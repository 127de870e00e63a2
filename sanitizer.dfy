/** The name sanitizer: `msStrings` and `cleanString`, which replace the runes
    that NTFS and other filesystems reserve by visually similar look-alikes. */
module Sanitizer {

  /** The substitution table `msStrings`. The apostrophe entry is commented out
      in the program, so the apostrophe is not a key. */
  const MsStrings: map<char, char> := map[
    '<'  := '\U{FE64}',  // SMALL LESS-THAN SIGN
    '>'  := '\U{FE65}',  // SMALL GREATER-THAN SIGN
    ':'  := '\U{02D0}',  // MODIFIER LETTER TRIANGULAR COLON
    '/'  := '\U{2044}',  // FRACTION SLASH
    '\\' := '\U{2216}',  // SET MINUS
    '|'  := '\U{2F01}',  // KANGXI RADICAL LINE
    '?'  := '\U{FE56}',  // SMALL QUESTION MARK
    '*'  := '\U{FE61}'   // SMALL ASTERISK
  ]

  /** The runes a filesystem-safe name must not contain. */
  const Reserved: set<char> := {'<', '>', ':', '/', '\\', '|', '?', '*'}

  /** The replacement of one rune: its table value, or the rune itself. */
  function CleanRune(c: char): char
  {
    if c in MsStrings then MsStrings[c] else c
  }

  /** The runes of `s`, each replaced through the table; specifies `CleanString`. */
  function Clean(s: string): string
  {
    if s == [] then [] else Clean(s[..|s| - 1]) + [CleanRune(s[|s| - 1])]
  }

  /** `cleanString`: builds the output by appending one rune per input rune. */
  method CleanString(s: string) returns (out: string)
    ensures out == Clean(s)
  {
    out := [];
    for i := 0 to |s|
      invariant out == Clean(s[..i])
    {
      assert s[..i + 1][..i] == s[..i];
      var r1 := s[i];
      if r1 in MsStrings {
        out := out + [MsStrings[r1]];
      } else {
        out := out + [r1];
      }
    }
    assert s[..|s|] == s;
  }

  /** No replacement rune is itself a key of the table. */
  lemma ReplacementsAreNotKeys()
    ensures forall c :: c in MsStrings ==> MsStrings[c] !in MsStrings && MsStrings[c] !in Reserved
    ensures '\'' !in MsStrings && CleanRune('\'') == '\''
  {
  }

  /** The output has exactly as many runes as the input; each rune that is a key
      is replaced by its table value, and every other rune is kept. */
  lemma {:induction false} CleanMapsEachRune(s: string)
    ensures |Clean(s)| == |s|
    ensures forall i :: 0 <= i < |s| && s[i] in MsStrings ==> Clean(s)[i] == MsStrings[s[i]]
    ensures forall i :: 0 <= i < |s| && s[i] !in MsStrings ==> Clean(s)[i] == s[i]
  {
    if s != [] {
      CleanMapsEachRune(s[..|s| - 1]);
    }
  }

  /** Cleaning twice is the same as cleaning once. */
  lemma {:induction false} CleanIdempotent(s: string)
    ensures Clean(Clean(s)) == Clean(s)
  {
    if s != [] {
      var init := s[..|s| - 1];
      CleanIdempotent(init);
      ReplacementsAreNotKeys();
      var t := Clean(s);
      assert t[..|t| - 1] == Clean(init);
    }
  }

  /** The output contains none of the reserved runes. */
  lemma {:induction false} CleanIsSafe(s: string)
    ensures forall i :: 0 <= i < |Clean(s)| ==> Clean(s)[i] !in Reserved
  {
    if s != [] {
      CleanIsSafe(s[..|s| - 1]);
      ReplacementsAreNotKeys();
    }
  }

  /** A name with no reserved runes is left as it is. */
  lemma {:induction false} CleanKeepsSafeNames(s: string)
    requires forall i :: 0 <= i < |s| ==> s[i] !in Reserved
    ensures Clean(s) == s
  {
    if s != [] {
      CleanKeepsSafeNames(s[..|s| - 1]);
    }
  }

  /** The scenario of a title with a slash and a colon. */
  lemma CleanSlashColon()
    ensures Clean("A/B:C") == "A\U{2044}B\U{02D0}C"
  {
    assert "A/B:C"[..4] == "A/B:";
    assert "A/B:"[..3] == "A/B";
    assert "A/B"[..2] == "A/";
    assert "A/"[..1] == "A";
  }
}
