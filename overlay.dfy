/**
 * The modal overlay of internal/utils: drawing a modal box centred over a
 * rendered screen. Text is a sequence of runes; the display width of a rune
 * is a parameter `rw`, and an escape sequence (ESC up to and including the
 * next 'm') is copied through and takes no columns.
 */
module Overlay {
  import opened GoStrings

  const EscapeChar: char := '\U{1B}'

  /** A line with no escape sequence and only one-column runes. */
  predicate Plain(rw: char -> nat, s: string) {
    forall i :: 0 <= i < |s| ==> s[i] != EscapeChar && rw(s[i]) == 1
  }

  lemma PlainTail(rw: char -> nat, s: string)
    requires Plain(rw, s) && s != []
    ensures Plain(rw, s[1..]) && s[0] != EscapeChar && rw(s[0]) == 1
  {
    assert forall i :: 0 <= i < |s| - 1 ==> s[1..][i] == s[i + 1];
  }

  // ---------------------------------------------------------------------------
  // Visible width (`lipgloss.Width` of one line)
  // ---------------------------------------------------------------------------

  /** The columns `s` takes when scanning starts inside an escape sequence or not. */
  function VisibleWidth(rw: char -> nat, s: string, inEscape: bool): nat
    decreases |s|
  {
    if s == [] then 0
    else if inEscape || s[0] == EscapeChar then VisibleWidth(rw, s[1..], s[0] != 'm')
    else rw(s[0]) + VisibleWidth(rw, s[1..], false)
  }

  function Width(rw: char -> nat, s: string): nat {
    VisibleWidth(rw, s, false)
  }

  /** A plain line is as wide as it is long. */
  lemma {:induction false} WidthPlain(rw: char -> nat, s: string)
    requires Plain(rw, s)
    ensures Width(rw, s) == |s|
    decreases |s|
  {
    if s != [] {
      PlainTail(rw, s);
      WidthPlain(rw, s[1..]);
    }
  }

  /** Widths add up across a text without escape characters. */
  lemma {:induction false} WidthConcat(rw: char -> nat, a: string, b: string)
    requires EscapeChar !in a
    ensures Width(rw, a + b) == Width(rw, a) + Width(rw, b)
    decreases |a|
  {
    if a == [] {
      assert a + b == b;
    } else {
      assert a[0] in a;
      assert (a + b)[0] == a[0];
      assert (a + b)[1..] == a[1..] + b;
      WidthConcat(rw, a[1..], b);
    }
  }

  /** Spaces, as wide as there are of them when a space takes one column. */
  lemma {:induction false} WidthSpaces(rw: char -> nat, n: int)
    requires rw(' ') == 1
    ensures Width(rw, Repeat(' ', n)) == if n < 0 then 0 else n
    decreases n
  {
    if n > 0 {
      WidthSpaces(rw, n - 1);
      assert Repeat(' ', n)[1..] == Repeat(' ', n - 1);
    }
  }

  // ---------------------------------------------------------------------------
  // WidthOfModal
  // ---------------------------------------------------------------------------

  /** The widest of the lines, 0 for none. */
  function MaxWidth(rw: char -> nat, lines: seq<string>): (r: nat)
    ensures forall j :: 0 <= j < |lines| ==> Width(rw, lines[j]) <= r
    ensures r == 0 || exists j :: 0 <= j < |lines| && r == Width(rw, lines[j])
    decreases |lines|
  {
    if lines == [] then 0
    else
      var init := lines[..|lines| - 1];
      assert forall j :: 0 <= j < |init| ==> init[j] == lines[j];
      var m := MaxWidth(rw, init);
      var w := Width(rw, lines[|lines| - 1]);
      if w > m then w else m
  }

  /** One more line raises the maximum to its width when it is wider. */
  lemma MaxWidthStep(rw: char -> nat, lines: seq<string>, i: int)
    requires 0 <= i < |lines|
    ensures MaxWidth(rw, lines[..i + 1])
         == if Width(rw, lines[i]) > MaxWidth(rw, lines[..i]) then Width(rw, lines[i]) else MaxWidth(rw, lines[..i])
  {
    assert lines[..i + 1][..i] == lines[..i];
  }

  /** `WidthOfModal`: the widest line of the modal (the `width` argument is unused). */
  method WidthOfModal(rw: char -> nat, width: int, modal: string) returns (modalWidth: nat)
    ensures modalWidth == MaxWidth(rw, Split(modal, '\n'))
  {
    var modalLines := Split(modal, '\n');
    modalWidth := 0;
    for i := 0 to |modalLines|
      invariant modalWidth == MaxWidth(rw, modalLines[..i])
    {
      MaxWidthStep(rw, modalLines, i);
      var lineLen := Width(rw, modalLines[i]);
      if lineLen > modalWidth {
        modalWidth := lineLen;
      }
    }
    assert modalLines[..|modalLines|] == modalLines;
  }

  // ---------------------------------------------------------------------------
  // truncateAt
  // ---------------------------------------------------------------------------

  /**
   * The rest of `truncateAt` from a point where `current` columns are used:
   * escape runes are copied; a visible rune is copied while it fits.
   */
  function TruncFrom(rw: char -> nat, s: string, width: int, current: int, inEscape: bool): string
    decreases |s|
  {
    if s == [] then []
    else if inEscape || s[0] == EscapeChar then [s[0]] + TruncFrom(rw, s[1..], width, current, s[0] != 'm')
    else if current >= width || current + rw(s[0]) > width then []
    else [s[0]] + TruncFrom(rw, s[1..], width, current + rw(s[0]), false)
  }

  /** `truncateAt(s, width)`. */
  function Truncate(rw: char -> nat, s: string, width: int): (r: string)
  {
    if width <= 0 then "" else TruncFrom(rw, s, width, 0, false)
  }

  /** What `truncateAt` keeps is a prefix of the line. */
  lemma {:induction false} TruncFromPrefix(rw: char -> nat, s: string, width: int, current: int, inEscape: bool)
    ensures var r := TruncFrom(rw, s, width, current, inEscape); |r| <= |s| && r == s[..|r|]
    decreases |s|
  {
    if s != [] {
      if inEscape || s[0] == EscapeChar {
        var rest := TruncFrom(rw, s[1..], width, current, s[0] != 'm');
        TruncFromPrefix(rw, s[1..], width, current, s[0] != 'm');
        assert s[..|rest| + 1] == [s[0]] + s[1..][..|rest|];
      } else if !(current >= width || current + rw(s[0]) > width) {
        var rest := TruncFrom(rw, s[1..], width, current + rw(s[0]), false);
        TruncFromPrefix(rw, s[1..], width, current + rw(s[0]), false);
        assert s[..|rest| + 1] == [s[0]] + s[1..][..|rest|];
      }
    }
  }

  /** What `truncateAt` keeps from `current` columns on adds at most `width - current` columns. */
  lemma {:induction false} TruncFromWidth(rw: char -> nat, s: string, width: int, current: int, inEscape: bool)
    requires current <= width
    ensures current + VisibleWidth(rw, TruncFrom(rw, s, width, current, inEscape), inEscape) <= width
    decreases |s|
  {
    if s != [] {
      var r := TruncFrom(rw, s, width, current, inEscape);
      if inEscape || s[0] == EscapeChar {
        var rest := TruncFrom(rw, s[1..], width, current, s[0] != 'm');
        assert r[0] == s[0] && r[1..] == rest;
        TruncFromWidth(rw, s[1..], width, current, s[0] != 'm');
      } else if !(current >= width || current + rw(s[0]) > width) {
        var rest := TruncFrom(rw, s[1..], width, current + rw(s[0]), false);
        assert r[0] == s[0] && r[1..] == rest;
        TruncFromWidth(rw, s[1..], width, current + rw(s[0]), false);
      }
    }
  }

  /** The result is a prefix of the line, no wider than asked, and empty for a width of zero or less. */
  lemma TruncateBounds(rw: char -> nat, s: string, width: int)
    ensures var r := Truncate(rw, s, width);
      |r| <= |s| && r == s[..|r|] && Width(rw, r) <= (if width < 0 then 0 else width) && (width <= 0 ==> r == "")
  {
    if width > 0 {
      TruncFromPrefix(rw, s, width, 0, false);
      TruncFromWidth(rw, s, width, 0, false);
    }
  }

  /** A line narrower than the width is kept whole. */
  lemma {:induction false} TruncFromFits(rw: char -> nat, s: string, width: int, current: int, inEscape: bool)
    requires current + VisibleWidth(rw, s, inEscape) < width
    ensures TruncFrom(rw, s, width, current, inEscape) == s
    decreases |s|
  {
    if s != [] {
      TruncFromFits(rw, s[1..], width, if inEscape || s[0] == EscapeChar then current else current + rw(s[0]),
                    if inEscape || s[0] == EscapeChar then s[0] != 'm' else false);
      assert [s[0]] + s[1..] == s;
    }
  }

  lemma TruncateFits(rw: char -> nat, s: string, width: int)
    requires Width(rw, s) < width
    ensures Truncate(rw, s, width) == s
  {
    TruncFromFits(rw, s, width, 0, false);
  }

  lemma {:induction false} TruncFromPlain(rw: char -> nat, s: string, width: int, current: int)
    requires Plain(rw, s) && 0 <= current <= width
    ensures TruncFrom(rw, s, width, current, false) == s[..if width - current < |s| then width - current else |s|]
    decreases |s|
  {
    if s != [] {
      PlainTail(rw, s);
      if current < width {
        TruncFromPlain(rw, s[1..], width, current + 1);
        var k := if width - current < |s| then width - current else |s|;
        assert [s[0]] + s[1..][..k - 1] == s[..k];
      }
    }
  }

  /** On a plain line, `truncateAt` keeps exactly the first `width` runes. */
  lemma TruncatePlain(rw: char -> nat, s: string, width: int)
    requires Plain(rw, s)
    ensures Truncate(rw, s, width) == s[..Clamp(width, |s|)]
  {
    if width > 0 {
      TruncFromPlain(rw, s, width, 0);
    }
  }

  function Clamp(n: int, len: nat): (r: nat)
    ensures r <= len
  {
    if n < 0 then 0 else if n > len then len else n
  }

  /** One step of `TruncFrom` at index `i` of a line. */
  lemma TruncFromAt(rw: char -> nat, s: string, i: int, width: int, current: int, inEscape: bool)
    requires 0 <= i < |s|
    ensures TruncFrom(rw, s[i..], width, current, inEscape) ==
      if inEscape || s[i] == EscapeChar then [s[i]] + TruncFrom(rw, s[i + 1..], width, current, s[i] != 'm')
      else if current >= width || current + rw(s[i]) > width then []
      else [s[i]] + TruncFrom(rw, s[i + 1..], width, current + rw(s[i]), false)
  {
    assert s[i..][0] == s[i];
    assert s[i..][1..] == s[i + 1..];
  }

  /** `TruncFrom` on the rest of a line from index `i`, as the loop of `truncateAt` walks it. */
  function TruncAt(rw: char -> nat, s: string, i: int, width: int, current: int, inEscape: bool): string
    requires 0 <= i <= |s|
    decreases |s| - i
  {
    if i == |s| then []
    else if inEscape || s[i] == EscapeChar then [s[i]] + TruncAt(rw, s, i + 1, width, current, s[i] != 'm')
    else if current >= width || current + rw(s[i]) > width then []
    else [s[i]] + TruncAt(rw, s, i + 1, width, current + rw(s[i]), false)
  }

  lemma {:induction false} TruncAtIsTruncFrom(rw: char -> nat, s: string, i: int, width: int, current: int,
                                              inEscape: bool)
    requires 0 <= i <= |s|
    ensures TruncAt(rw, s, i, width, current, inEscape) == TruncFrom(rw, s[i..], width, current, inEscape)
    decreases |s| - i
  {
    if i < |s| {
      TruncFromAt(rw, s, i, width, current, inEscape);
      if inEscape || s[i] == EscapeChar {
        TruncAtIsTruncFrom(rw, s, i + 1, width, current, s[i] != 'm');
      } else if !(current >= width || current + rw(s[i]) > width) {
        TruncAtIsTruncFrom(rw, s, i + 1, width, current + rw(s[i]), false);
      }
    }
  }

  /** An escape rune, or any rune inside an escape sequence, is copied. */
  lemma TruncEscapeStep(rw: char -> nat, s: string, i: int, width: int, current: int, inEscape: bool, result: string)
    requires 0 <= i < |s| && (inEscape || s[i] == EscapeChar)
    ensures result + TruncAt(rw, s, i, width, current, inEscape)
         == (result + [s[i]]) + TruncAt(rw, s, i + 1, width, current, s[i] != 'm')
  {
  }

  /** A visible rune that fits is copied and takes its columns. */
  lemma TruncVisibleStep(rw: char -> nat, s: string, i: int, width: int, current: int, result: string)
    requires 0 <= i < |s| && s[i] != EscapeChar && current < width && current + rw(s[i]) <= width
    ensures result + TruncAt(rw, s, i, width, current, false)
         == (result + [s[i]]) + TruncAt(rw, s, i + 1, width, current + rw(s[i]), false)
  {
  }

  /** A visible rune that does not fit ends the output. */
  lemma TruncStopStep(rw: char -> nat, s: string, i: int, width: int, current: int, result: string)
    requires 0 <= i < |s| && s[i] != EscapeChar && (current >= width || current + rw(s[i]) > width)
    ensures result + TruncAt(rw, s, i, width, current, false) == result
  {
  }

  /** `truncateAt`, loop by loop. */
  method TruncateAt(rw: char -> nat, s: string, width: int) returns (r: string)
    ensures r == Truncate(rw, s, width)
  {
    if width <= 0 {
      return "";
    }
    var result := "";
    var currentWidth := 0;
    var inEscape := false;
    var i := 0;
    TruncAtIsTruncFrom(rw, s, 0, width, 0, false);
    assert s[0..] == s;
    while i < |s|
      invariant 0 <= i <= |s|
      invariant result + TruncAt(rw, s, i, width, currentWidth, inEscape) == Truncate(rw, s, width)
    {
      var c := s[i];
      ghost var wasInEscape := inEscape;
      if c == EscapeChar {
        inEscape := true;
      }
      if inEscape {
        TruncEscapeStep(rw, s, i, width, currentWidth, wasInEscape, result);
        result := result + [c];
        if c == 'm' {
          inEscape := false;
        }
        i := i + 1;
        continue;
      }
      if currentWidth >= width {
        TruncStopStep(rw, s, i, width, currentWidth, result);
        break;
      }
      var runeW := rw(c);
      if currentWidth + runeW > width {
        TruncStopStep(rw, s, i, width, currentWidth, result);
        break;
      }
      TruncVisibleStep(rw, s, i, width, currentWidth, result);
      result := result + [c];
      currentWidth := currentWidth + runeW;
      i := i + 1;
    }
    r := result;
  }

  // ---------------------------------------------------------------------------
  // skipChars
  // ---------------------------------------------------------------------------

  /**
   * The rest of `skipChars` before output starts, `skipped` columns in:
   * escape runes are copied; visible runes are dropped until the columns
   * passed exceed `n`, and from the rune that crosses that point on the line
   * is copied whole.
   */
  function SkipFrom(rw: char -> nat, s: string, n: int, skipped: int, inEscape: bool): string
    decreases |s|
  {
    if s == [] then []
    else if inEscape || s[0] == EscapeChar then [s[0]] + SkipFrom(rw, s[1..], n, skipped, s[0] != 'm')
    else if skipped + rw(s[0]) > n then s
    else SkipFrom(rw, s[1..], n, skipped + rw(s[0]), false)
  }

  /** What `skipChars` keeps comes from the line; without escape sequences it is a suffix of the line. */
  lemma {:induction false} SkipFromChars(rw: char -> nat, s: string, n: int, skipped: int, inEscape: bool)
    ensures var r := SkipFrom(rw, s, n, skipped, inEscape);
      |r| <= |s| && (forall x :: x in r ==> x in s) && (EscapeChar !in s && !inEscape ==> r == s[|s| - |r|..])
    decreases |s|
  {
    if s != [] {
      if inEscape || s[0] == EscapeChar {
        SkipFromChars(rw, s[1..], n, skipped, s[0] != 'm');
      } else if skipped + rw(s[0]) <= n {
        SkipFromChars(rw, s[1..], n, skipped + rw(s[0]), false);
        var r := SkipFrom(rw, s[1..], n, skipped + rw(s[0]), false);
        assert s[1..][|s| - 1 - |r|..] == s[|s| - |r|..];
      }
    }
  }

  /** One step of `SkipFrom` at index `i` of a line. */
  lemma SkipFromAt(rw: char -> nat, s: string, i: int, n: int, skipped: int, inEscape: bool)
    requires 0 <= i < |s|
    ensures SkipFrom(rw, s[i..], n, skipped, inEscape) ==
      if inEscape || s[i] == EscapeChar then [s[i]] + SkipFrom(rw, s[i + 1..], n, skipped, s[i] != 'm')
      else if skipped + rw(s[i]) > n then [s[i]] + s[i + 1..]
      else SkipFrom(rw, s[i + 1..], n, skipped + rw(s[i]), false)
  {
    assert s[i..][0] == s[i];
    assert s[i..][1..] == s[i + 1..];
    assert s[i..] == [s[i]] + s[i + 1..];
  }

  /** `skipChars(s, n)`. */
  function Skip(rw: char -> nat, s: string, n: int): (r: string)
    ensures n <= 0 ==> r == s
  {
    if n <= 0 then s else SkipFrom(rw, s, n, 0, false)
  }

  lemma {:induction false} SkipFromPlain(rw: char -> nat, s: string, n: int, skipped: int)
    requires Plain(rw, s) && 0 <= skipped <= n
    ensures SkipFrom(rw, s, n, skipped, false) == s[if n - skipped < |s| then n - skipped else |s|..]
    decreases |s|
  {
    if s != [] {
      PlainTail(rw, s);
      if skipped < n {
        SkipFromPlain(rw, s[1..], n, skipped + 1);
        var k := if n - skipped < |s| then n - skipped else |s|;
        assert s[1..][k - 1..] == s[k..];
      }
    }
  }

  /** On a plain line, `skipChars` drops exactly the first `n` runes. */
  lemma SkipPlain(rw: char -> nat, s: string, n: int)
    requires Plain(rw, s)
    ensures Skip(rw, s, n) == s[Clamp(n, |s|)..]
  {
    if n > 0 {
      SkipFromPlain(rw, s, n, 0);
    }
  }

  /** On a plain line, what `truncateAt` keeps and what `skipChars` keeps at the same column make up the line. */
  lemma TruncateThenSkip(rw: char -> nat, s: string, n: int)
    requires Plain(rw, s)
    ensures Truncate(rw, s, n) + Skip(rw, s, n) == s
  {
    TruncatePlain(rw, s, n);
    SkipPlain(rw, s, n);
    assert s[..Clamp(n, |s|)] + s[Clamp(n, |s|)..] == s;
  }

  /** Once output has started, every rune is copied. */
  lemma SkipCopyStep(s: string, i: int, result: string)
    requires 0 <= i < |s|
    ensures result + s[i..] == (result + [s[i]]) + s[i + 1..]
  {
    assert s[i..] == [s[i]] + s[i + 1..];
  }

  /** Before output starts, an escape rune, or any rune inside an escape sequence, is copied. */
  lemma SkipEscapeStep(rw: char -> nat, s: string, i: int, n: int, skipped: int, inEscape: bool, result: string)
    requires 0 <= i < |s| && (inEscape || s[i] == EscapeChar)
    ensures result + SkipFrom(rw, s[i..], n, skipped, inEscape)
         == (result + [s[i]]) + SkipFrom(rw, s[i + 1..], n, skipped, s[i] != 'm')
  {
    SkipFromAt(rw, s, i, n, skipped, inEscape);
  }

  /** The visible rune that passes column `n` starts the output, and is copied with the rest of the line. */
  lemma SkipCrossStep(rw: char -> nat, s: string, i: int, n: int, skipped: int, result: string)
    requires 0 <= i < |s| && s[i] != EscapeChar && skipped + rw(s[i]) > n
    ensures result + SkipFrom(rw, s[i..], n, skipped, false) == (result + [s[i]]) + s[i + 1..]
  {
    SkipFromAt(rw, s, i, n, skipped, false);
  }

  /** A visible rune before column `n` is dropped. */
  lemma SkipDropStep(rw: char -> nat, s: string, i: int, n: int, skipped: int)
    requires 0 <= i < |s| && s[i] != EscapeChar && skipped + rw(s[i]) <= n
    ensures SkipFrom(rw, s[i..], n, skipped, false) == SkipFrom(rw, s[i + 1..], n, skipped + rw(s[i]), false)
  {
    SkipFromAt(rw, s, i, n, skipped, false);
  }

  /** `skipChars`, loop by loop. */
  method SkipChars(rw: char -> nat, s: string, n: int) returns (r: string)
    ensures r == Skip(rw, s, n)
  {
    if n <= 0 {
      return s;
    }
    var skipped := 0;
    var inEscape := false;
    var result := "";
    var started := false;
    var i := 0;
    assert s[0..] == s;
    while i < |s|
      invariant 0 <= i <= |s|
      invariant started ==> result + s[i..] == Skip(rw, s, n)
      invariant !started ==> result + SkipFrom(rw, s[i..], n, skipped, inEscape) == Skip(rw, s, n)
    {
      var c := s[i];
      if started {
        SkipCopyStep(s, i, result);
      } else if inEscape || c == EscapeChar {
        SkipEscapeStep(rw, s, i, n, skipped, inEscape, result);
      } else if skipped + rw(c) > n {
        SkipCrossStep(rw, s, i, n, skipped, result);
      } else {
        SkipDropStep(rw, s, i, n, skipped);
      }
      if c == EscapeChar {
        inEscape := true;
      }
      if started || inEscape {
        result := result + [c];
      }
      if inEscape {
        if c == 'm' {
          inEscape := false;
        }
        i := i + 1;
        continue;
      }
      if !started {
        var runeW := rw(c);
        skipped := skipped + runeW;
        if skipped > n {
          started := true;
          result := result + [c];
        }
      }
      i := i + 1;
    }
    assert s[i..] == [];
    r := result;
  }

  // ---------------------------------------------------------------------------
  // RenderWithModal
  // ---------------------------------------------------------------------------

  /** Go's integer division of a `total - size` difference by 2, which rounds toward zero. */
  function Half(d: int): int {
    if d >= 0 then d / 2 else -((-d) / 2)
  }

  /**
   * The first row (or column) of a block of `size` centred in `total`, never
   * negative: the gap after the block is the gap before it or one more.
   */
  function StartOffset(total: int, size: int): (r: int)
    ensures r >= 0
    ensures total <= size ==> r == 0
    ensures total >= size ==> 0 <= (total - size - r) - r <= 1
  {
    var s := Half(total - size);
    if s < 0 then 0 else s
  }

  /** `n` empty lines. */
  function Blanks(n: int): (r: seq<string>)
    ensures |r| == if n < 0 then 0 else n
    ensures forall j :: 0 <= j < |r| ==> r[j] == ""
    decreases n
  {
    if n <= 0 then [] else Blanks(n - 1) + [""]
  }

  /** The base lines with empty lines added up to `height`. */
  function Padded(lines: seq<string>, height: int): (r: seq<string>)
    ensures |r| == if height > |lines| then height else |lines|
    ensures r[..|lines|] == lines
    ensures forall j :: |lines| <= j < |r| ==> r[j] == ""
  {
    lines + Blanks(height - |lines|)
  }

  /** The part of a base line left of the modal: cut at the start column, then padded with spaces up to it. */
  function LeftPart(rw: char -> nat, baseLine: string, startCol: int): string {
    PadTo(rw, Truncate(rw, baseLine, startCol), startCol)
  }

  /** A text narrower than `startCol` columns, padded with spaces up to it. */
  function PadTo(rw: char -> nat, left: string, startCol: int): string {
    if Width(rw, left) < startCol then left + Repeat(' ', startCol - Width(rw, left)) else left
  }

  /** The part of a base line right of the modal: empty unless the line reaches past the modal's end column. */
  function RightPart(rw: char -> nat, baseLine: string, endCol: int): (r: string)
    ensures endCol >= Width(rw, baseLine) ==> r == ""
  {
    if endCol < Width(rw, baseLine) then Skip(rw, baseLine, endCol) else ""
  }

  /** A base line with a modal line drawn over it from `startCol`. */
  function OverlayLine(rw: char -> nat, baseLine: string, modalLine: string, startCol: int): string {
    LeftPart(rw, baseLine, startCol) + modalLine + RightPart(rw, baseLine, startCol + Width(rw, modalLine))
  }

  /** Drawing a modal line over a base line from column `startCol`. */
  function Draw(rw: char -> nat, startCol: int): (string, string) -> string {
    (baseLine, modalLine) => OverlayLine(rw, baseLine, modalLine, startCol)
  }

  /**
   * The lines after the overlay loop, each modal line drawn by `draw`: modal
   * line `k` is drawn over row `startRow + k` of what the earlier modal lines
   * left, when that row exists.
   */
  function Composite(draw: (string, string) -> string, lines: seq<string>, modalLines: seq<string>, startRow: int)
    : (r: seq<string>)
    ensures |r| == |lines|
    decreases |modalLines|
  {
    if modalLines == [] then lines
    else
      var prev := Composite(draw, lines, modalLines[..|modalLines| - 1], startRow);
      var row := startRow + |modalLines| - 1;
      if 0 <= row < |prev| then prev[row := draw(prev[row], modalLines[|modalLines| - 1])]
      else prev
  }

  /** Row `j` as the overlay should leave it: drawn over when a modal line covers it, the base line otherwise. */
  function ComposedRow(draw: (string, string) -> string, lines: seq<string>, modalLines: seq<string>, startRow: int,
                       j: int): string
    requires 0 <= j < |lines|
  {
    if startRow <= j < startRow + |modalLines| then draw(lines[j], modalLines[j - startRow]) else lines[j]
  }

  /** Drawing modal line `i` over what the earlier ones left. */
  lemma CompositeSnoc(draw: (string, string) -> string, lines: seq<string>, modalLines: seq<string>, startRow: int,
                      i: int)
    requires 0 <= i < |modalLines|
    ensures Composite(draw, lines, modalLines[..i + 1], startRow)
         == var prev := Composite(draw, lines, modalLines[..i], startRow);
            if 0 <= startRow + i < |prev| then prev[startRow + i := draw(prev[startRow + i], modalLines[i])] else prev
  {
    assert modalLines[..i + 1][..i] == modalLines[..i];
  }

  lemma DrawIs(rw: char -> nat, startCol: int, baseLine: string, modalLine: string)
    ensures Draw(rw, startCol)(baseLine, modalLine) == OverlayLine(rw, baseLine, modalLine, startCol)
  {
  }

  /** Row by row, the overlay loop draws each covered row over its base line once, and keeps every other row. */
  lemma {:induction false} CompositeRow(draw: (string, string) -> string, lines: seq<string>, modalLines: seq<string>,
                                        startRow: int, j: int)
    requires 0 <= j < |lines|
    ensures Composite(draw, lines, modalLines, startRow)[j] == ComposedRow(draw, lines, modalLines, startRow, j)
    decreases |modalLines|
  {
    if modalLines != [] {
      var init := modalLines[..|modalLines| - 1];
      var prev := Composite(draw, lines, init, startRow);
      var row := startRow + |modalLines| - 1;
      CompositeRow(draw, lines, init, startRow, j);
      if j == row {
        assert prev[j] == lines[j];
      } else {
        assert Composite(draw, lines, modalLines, startRow)[j] == prev[j];
        if startRow <= j < startRow + |init| {
          assert modalLines[j - startRow] == init[j - startRow];
        }
      }
    }
  }

  function Render(rw: char -> nat, height: int, width: int, baseContent: string, modal: string): string {
    var modalLines := Split(modal, '\n');
    Join(Composite(Draw(rw, StartOffset(width, MaxWidth(rw, modalLines))), Padded(Split(baseContent, '\n'), height),
                   modalLines, StartOffset(height, |modalLines|)), '\n')
  }

  /** `RenderWithModal`, statement by statement. */
  method RenderWithModal(rw: char -> nat, height: int, width: int, baseContent: string, modal: string) returns (r: string)
    ensures r == Render(rw, height, width, baseContent, modal)
  {
    var baseLines := PadLines(Split(baseContent, '\n'), height);
    var modalLines := Split(modal, '\n');
    var modalHeight := |modalLines|;
    var startRow := Half(height - modalHeight);
    if startRow < 0 {
      startRow := 0;
    }
    var modalWidth := WidthOfModal(rw, width, modal);
    var startCol := Half(width - modalWidth);
    if startCol < 0 {
      startCol := 0;
    }
    assert startRow == StartOffset(height, modalHeight);
    assert startCol == StartOffset(width, modalWidth);
    baseLines := OverlayRows(rw, baseLines, modalLines, startRow, startCol);
    r := Join(baseLines, '\n');
  }

  /** The loop that adds empty lines until there are `height` of them. */
  method PadLines(lines: seq<string>, height: int) returns (baseLines: seq<string>)
    ensures baseLines == Padded(lines, height)
  {
    baseLines := lines;
    while |baseLines| < height
      invariant baseLines == lines + Blanks(|baseLines| - |lines|)
      invariant |lines| <= |baseLines|
      invariant |baseLines| == |lines| || |baseLines| <= height
      decreases height - |baseLines|
    {
      assert lines + Blanks(|baseLines| + 1 - |lines|) == (lines + Blanks(|baseLines| - |lines|)) + [""];
      baseLines := baseLines + [""];
    }
  }

  /** The loop that draws each modal line over its row, skipping rows past the last line. */
  method OverlayRows(rw: char -> nat, padded: seq<string>, modalLines: seq<string>, startRow: int, startCol: int)
    returns (baseLines: seq<string>)
    ensures baseLines == Composite(Draw(rw, startCol), padded, modalLines, startRow)
  {
    baseLines := padded;
    for i := 0 to |modalLines|
      invariant baseLines == Composite(Draw(rw, startCol), padded, modalLines[..i], startRow)
    {
      CompositeSnoc(Draw(rw, startCol), padded, modalLines, startRow, i);
      var modalLine := modalLines[i];
      var row := startRow + i;
      if row >= 0 && row < |baseLines| {
        var baseLine := baseLines[row];
        var newLine := OverlayRow(rw, baseLine, modalLine, startCol);
        DrawIs(rw, startCol, baseLine, modalLine);
        baseLines := baseLines[row := newLine];
      }
    }
    assert modalLines[..|modalLines|] == modalLines;
  }

  /** The body of the overlay loop for one row, statement by statement. */
  method OverlayRow(rw: char -> nat, baseLine: string, modalLine: string, startCol: int) returns (line: string)
    ensures line == OverlayLine(rw, baseLine, modalLine, startCol)
  {
    var baseWidth := Width(rw, baseLine);
    var leftPart := TruncateAt(rw, baseLine, startCol);
    var endCol := startCol + Width(rw, modalLine);
    var rightPart := "";
    if endCol < baseWidth {
      rightPart := SkipChars(rw, baseLine, endCol);
    }
    var leftWidth := Width(rw, leftPart);
    if leftWidth < startCol {
      leftPart := leftPart + Repeat(' ', startCol - leftWidth);
    }
    line := leftPart + modalLine + rightPart;
  }

  // ---------------------------------------------------------------------------
  // Properties of the overlay
  // ---------------------------------------------------------------------------

  /** A rune absent from a line is absent from any prefix of it. */
  lemma PrefixLacks(s: string, p: string, x: char)
    requires |p| <= |s| && p == s[..|p|] && x !in s
    ensures x !in p
  {
    assert forall k :: 0 <= k < |p| ==> p[k] == s[k];
  }

  /** Drawing over a line without line breaks adds none. */
  lemma OverlayLineOneLine(rw: char -> nat, baseLine: string, modalLine: string, startCol: int)
    requires '\n' !in baseLine && '\n' !in modalLine
    ensures '\n' !in OverlayLine(rw, baseLine, modalLine, startCol)
  {
    TruncateBounds(rw, baseLine, startCol);
    PrefixLacks(baseLine, Truncate(rw, baseLine, startCol), '\n');
    var endCol := startCol + Width(rw, modalLine);
    if endCol > 0 {
      SkipFromChars(rw, baseLine, endCol, 0, false);
    }
  }

  /** The output's lines are the lines after the overlay loop. */
  lemma RenderSplit(rw: char -> nat, height: int, width: int, baseContent: string, modal: string)
    ensures var modalLines := Split(modal, '\n');
      Split(Render(rw, height, width, baseContent, modal), '\n') ==
      Composite(Draw(rw, StartOffset(width, MaxWidth(rw, modalLines))), Padded(Split(baseContent, '\n'), height),
                modalLines, StartOffset(height, |modalLines|))
  {
    var base := Split(baseContent, '\n');
    var lines := Padded(base, height);
    var modalLines := Split(modal, '\n');
    var startRow := StartOffset(height, |modalLines|);
    var startCol := StartOffset(width, MaxWidth(rw, modalLines));
    var comp := Composite(Draw(rw, startCol), lines, modalLines, startRow);
    SplitPiecesLackSep(baseContent, '\n');
    SplitPiecesLackSep(modal, '\n');
    assert forall j :: 0 <= j < |comp| ==> '\n' !in comp[j] by {
      forall j | 0 <= j < |comp|
        ensures '\n' !in comp[j]
      {
        ComposedLineOneLine(rw, base, height, modalLines, startRow, startCol, j);
      }
    }
    SplitJoin(comp, '\n');
  }

  lemma ComposedLineOneLine(rw: char -> nat, base: seq<string>, height: int, modalLines: seq<string>,
                            startRow: int, startCol: int, j: int)
    requires forall k :: 0 <= k < |base| ==> '\n' !in base[k]
    requires forall k :: 0 <= k < |modalLines| ==> '\n' !in modalLines[k]
    requires 0 <= j < |Padded(base, height)|
    ensures '\n' !in Composite(Draw(rw, startCol), Padded(base, height), modalLines, startRow)[j]
  {
    var lines := Padded(base, height);
    PaddedOneLine(base, height, j);
    CompositeRow(Draw(rw, startCol), lines, modalLines, startRow, j);
    if startRow <= j < startRow + |modalLines| {
      OverlayLineOneLine(rw, lines[j], modalLines[j - startRow], startCol);
    }
  }

  lemma PaddedOneLine(base: seq<string>, height: int, j: int)
    requires forall k :: 0 <= k < |base| ==> '\n' !in base[k]
    requires 0 <= j < |Padded(base, height)|
    ensures '\n' !in Padded(base, height)[j]
  {
    var lines := Padded(base, height);
    if j < |base| {
      assert lines[j] == lines[..|base|][j] == base[j];
    }
  }

  /** The output has one line per padded base line: `max(height, base lines)` of them. */
  lemma RenderLineCount(rw: char -> nat, height: int, width: int, baseContent: string, modal: string)
    ensures var base := Split(baseContent, '\n');
      |Split(Render(rw, height, width, baseContent, modal), '\n')| == if height > |base| then height else |base|
  {
    RenderSplit(rw, height, width, baseContent, modal);
  }

  /** Row `j` of the output is row `j` after the overlay loop. */
  lemma RenderRow(rw: char -> nat, height: int, width: int, baseContent: string, modal: string, j: int)
    requires 0 <= j < |Padded(Split(baseContent, '\n'), height)|
    ensures var out := Split(Render(rw, height, width, baseContent, modal), '\n');
      var modalLines := Split(modal, '\n');
      j < |out| &&
      out[j] == ComposedRow(Draw(rw, StartOffset(width, MaxWidth(rw, modalLines))), Padded(Split(baseContent, '\n'), height),
                            modalLines, StartOffset(height, |modalLines|), j)
  {
    var modalLines := Split(modal, '\n');
    RenderSplit(rw, height, width, baseContent, modal);
    CompositeRow(Draw(rw, StartOffset(width, MaxWidth(rw, modalLines))), Padded(Split(baseContent, '\n'), height),
                 modalLines, StartOffset(height, |modalLines|), j);
  }

  /** Every row the modal does not cover is the padded base line unchanged. */
  lemma RenderKeepsOtherRows(rw: char -> nat, height: int, width: int, baseContent: string, modal: string, j: int)
    requires var modalLines := Split(modal, '\n');
      var startRow := StartOffset(height, |modalLines|);
      0 <= j < |Padded(Split(baseContent, '\n'), height)| && !(startRow <= j < startRow + |modalLines|)
    ensures var out := Split(Render(rw, height, width, baseContent, modal), '\n');
      j < |out| && out[j] == Padded(Split(baseContent, '\n'), height)[j]
  {
    RenderRow(rw, height, width, baseContent, modal, j);
  }

  /** Every row the modal covers is that base line with its modal line drawn from the start column. */
  lemma RenderDrawsModalRows(rw: char -> nat, height: int, width: int, baseContent: string, modal: string, j: int)
    requires var modalLines := Split(modal, '\n');
      var startRow := StartOffset(height, |modalLines|);
      0 <= j < |Padded(Split(baseContent, '\n'), height)| && startRow <= j < startRow + |modalLines|
    ensures var out := Split(Render(rw, height, width, baseContent, modal), '\n');
      var modalLines := Split(modal, '\n');
      var startRow := StartOffset(height, |modalLines|);
      j < |out| &&
      out[j] == OverlayLine(rw, Padded(Split(baseContent, '\n'), height)[j], modalLines[j - startRow],
                            StartOffset(width, MaxWidth(rw, modalLines)))
  {
    RenderRow(rw, height, width, baseContent, modal, j);
  }

  /** On a plain left part, the modal line starts exactly at the start column when a space takes one column. */
  lemma LeftPartWidth(rw: char -> nat, baseLine: string, startCol: int)
    requires EscapeChar !in baseLine && rw(' ') == 1 && startCol >= 0
    ensures Width(rw, LeftPart(rw, baseLine, startCol)) == startCol
  {
    var left := Truncate(rw, baseLine, startCol);
    TruncateBounds(rw, baseLine, startCol);
    PrefixLacks(baseLine, left, EscapeChar);
    var leftWidth := Width(rw, left);
    if leftWidth < startCol {
      WidthConcat(rw, left, Repeat(' ', startCol - leftWidth));
      WidthSpaces(rw, startCol - leftWidth);
    }
  }

  /** On a plain line the left part is its first `startCol` runes, padded with spaces when it is shorter. */
  lemma LeftPartPlain(rw: char -> nat, baseLine: string, startCol: int)
    requires Plain(rw, baseLine) && rw(' ') == 1 && startCol >= 0
    ensures LeftPart(rw, baseLine, startCol) ==
      if |baseLine| <= startCol then baseLine + Repeat(' ', startCol - |baseLine|) else baseLine[..startCol]
  {
    TruncatePlain(rw, baseLine, startCol);
    var left := Truncate(rw, baseLine, startCol);
    assert Plain(rw, left) by {
      assert forall k :: 0 <= k < |left| ==> left[k] == baseLine[k];
    }
    WidthPlain(rw, left);
    if |baseLine| <= startCol {
      assert left == baseLine;
    }
  }

  /** On plain lines the right part is the base line from the modal's end column, when it reaches past it. */
  lemma RightPartPlain(rw: char -> nat, baseLine: string, modalLine: string, startCol: int)
    requires Plain(rw, baseLine) && Plain(rw, modalLine) && startCol >= 0
    ensures RightPart(rw, baseLine, startCol + Width(rw, modalLine)) ==
      if startCol + |modalLine| < |baseLine| then baseLine[startCol + |modalLine|..] else ""
  {
    WidthPlain(rw, baseLine);
    WidthPlain(rw, modalLine);
    SkipPlain(rw, baseLine, startCol + |modalLine|);
  }

  /**
   * On plain lines the overlay overwrites columns `startCol ..` of the base
   * line with the modal line: the base line's first `startCol` runes (padded
   * with spaces when it is shorter), the modal line, then the base line from
   * the modal's end column when it reaches past it.
   */
  lemma OverlayPlain(rw: char -> nat, baseLine: string, modalLine: string, startCol: int)
    requires Plain(rw, baseLine) && Plain(rw, modalLine) && rw(' ') == 1 && startCol >= 0
    ensures OverlayLine(rw, baseLine, modalLine, startCol) ==
      (if |baseLine| <= startCol then baseLine + Repeat(' ', startCol - |baseLine|) else baseLine[..startCol]) +
      modalLine +
      (if startCol + |modalLine| < |baseLine| then baseLine[startCol + |modalLine|..] else "")
  {
    LeftPartPlain(rw, baseLine, startCol);
    RightPartPlain(rw, baseLine, modalLine, startCol);
  }
}
