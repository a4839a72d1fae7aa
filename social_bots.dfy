/** The social-bot runner: message templates (loading, random choice and
    placeholder substitution), the Telegram, Twitter and Discord task loops, and
    run, which chains the three.

    The platforms' SDKs are not modelled: whether a client was initialised and
    what a send gives are part of an `Env`, and so are reading a template file
    and the index random.choice picks. */
module SocialBots {
  import opened Values

  // ---------------------------------------------------------------------------
  // Template files.

  /** The characters `str.strip()` removes: Python's whitespace. */
  predicate IsSpace(c: char)
  {
    var n := c as int;
    (9 <= n <= 13) || (28 <= n <= 32) || n == 0x85 || n == 0xA0 || n == 0x1680
    || (0x2000 <= n <= 0x200A) || n == 0x2028 || n == 0x2029 || n == 0x202F
    || n == 0x205F || n == 0x3000
  }

  /** Every character of s in [lo, hi) is whitespace. */
  predicate SpaceBetween(s: string, lo: int, hi: int)
  {
    forall k :: lo <= k < hi && 0 <= k < |s| ==> IsSpace(s[k])
  }

  predicate AllSpace(s: string)
  {
    SpaceBetween(s, 0, |s|)
  }

  /** No whitespace at either end. */
  predicate Stripped(s: string)
  {
    s == [] || (!IsSpace(s[0]) && !IsSpace(s[|s| - 1]))
  }

  /** The first index from i on that does not hold whitespace. */
  function SkipSpaces(s: string, i: nat): (j: nat)
    requires i <= |s|
    ensures i <= j <= |s|
    ensures SpaceBetween(s, i, j)
    ensures j < |s| ==> !IsSpace(s[j])
    decreases |s| - i
  {
    if i < |s| && IsSpace(s[i]) then SkipSpaces(s, i + 1) else i
  }

  /** The index after the last character in [lo, j) that is not whitespace,
      or lo. */
  function SkipSpacesBack(s: string, lo: nat, j: nat): (i: nat)
    requires lo <= j <= |s|
    ensures lo <= i <= j
    ensures SpaceBetween(s, i, j)
    ensures i > lo ==> !IsSpace(s[i - 1])
    decreases j - lo
  {
    if j > lo && IsSpace(s[j - 1]) then SkipSpacesBack(s, lo, j - 1) else j
  }

  /** `s.strip()`: the slice between the leading and the trailing whitespace,
      which has none at either end, empty exactly when s is all whitespace. */
  function Strip(s: string): (r: string)
    ensures Stripped(r)
    ensures r == [] <==> AllSpace(s)
    ensures exists lo ::
      (0 <= lo && lo + |r| <= |s| && r == s[lo..lo + |r|] && SpaceBetween(s, 0, lo) && SpaceBetween(s, lo + |r|, |s|))
  {
    var lo := SkipSpaces(s, 0);
    var hi := SkipSpacesBack(s, lo, |s|);
    assert hi > lo ==> s[lo..hi][0] == s[lo] && s[lo..hi][hi - lo - 1] == s[hi - 1];
    s[lo..hi]
  }

  /** Skipping whitespace stops at the first character that is not. */
  lemma {:induction false} SkipSpacesTo(s: string, i: nat, m: nat)
    requires i <= m <= |s| && SpaceBetween(s, i, m)
    requires m < |s| ==> !IsSpace(s[m])
    ensures SkipSpaces(s, i) == m
    decreases m - i
  {
    if i < m {
      SkipSpacesTo(s, i + 1, m);
    }
  }

  lemma {:induction false} SkipSpacesBackTo(s: string, lo: nat, j: nat, m: nat)
    requires lo <= m <= j <= |s| && SpaceBetween(s, m, j)
    requires m > lo ==> !IsSpace(s[m - 1])
    ensures SkipSpacesBack(s, lo, j) == m
    decreases j - m
  {
    if m < j {
      SkipSpacesBackTo(s, lo, j - 1, m);
    }
  }

  /** Whitespace around nothing strips to nothing. */
  lemma StripAllSpace(pre: string, post: string)
    requires AllSpace(pre) && AllSpace(post)
    ensures Strip(pre + post) == []
  {
    var x := pre + post;
    forall k | 0 <= k < |x|
      ensures IsSpace(x[k])
    {
      if k < |pre| { assert x[k] == pre[k]; } else { assert x[k] == post[k - |pre|]; }
    }
    assert AllSpace(x);
  }

  /** Around a non-empty slice with no whitespace at its ends, the two skips
      stop exactly at the slice's ends. */
  lemma StripBounds(pre: string, s: string, post: string)
    requires AllSpace(pre) && AllSpace(post) && Stripped(s) && s != []
    ensures var x := pre + s + post;
      SkipSpaces(x, 0) == |pre| && SkipSpacesBack(x, |pre|, |x|) == |pre| + |s|
  {
    var x := pre + s + post;
    assert SpaceBetween(x, 0, |pre|) by {
      forall k | 0 <= k < |pre| ensures IsSpace(x[k]) { assert x[k] == pre[k]; }
    }
    assert x[|pre|] == s[0];
    SkipSpacesTo(x, 0, |pre|);
    assert SpaceBetween(x, |pre| + |s|, |x|) by {
      forall k | |pre| + |s| <= k < |x| ensures IsSpace(x[k]) {
        assert x[k] == post[k - |pre| - |s|];
      }
    }
    assert x[|pre| + |s| - 1] == s[|s| - 1];
    SkipSpacesBackTo(x, |pre|, |x|, |pre| + |s|);
  }

  /** A slice with no whitespace at its ends, between whitespace, is what strip
      gives back: with Strip's contract this characterises strip. */
  lemma StripExact(pre: string, s: string, post: string)
    requires AllSpace(pre) && AllSpace(post) && Stripped(s)
    ensures Strip(pre + s + post) == s
  {
    var x := pre + s + post;
    if s == [] {
      assert x == pre + post;
      StripAllSpace(pre, post);
    } else {
      StripBounds(pre, s, post);
      assert x[|pre|..|pre| + |s|] == s;
    }
  }

  /** Stripping twice is stripping once. */
  lemma StripIdempotent(s: string)
    ensures Strip(Strip(s)) == Strip(s)
  {
    StripExact([], Strip(s), []);
    assert [] + Strip(s) + [] == Strip(s);
  }

  /** The characters that end a line of a file opened in text mode, where
      '\r\n' and a lone '\r' both read as '\n'. */
  predicate IsBreak(c: char)
  {
    c == '\n' || c == '\r'
  }

  predicate NoBreak(s: string)
  {
    forall i :: 0 <= i < |s| ==> !IsBreak(s[i])
  }

  /** The pieces of a text between line breaks. Iterating a file gives these
      pieces (with their line ending, which strip removes), except that a
      '\r\n' ending adds an empty piece and a final line break adds an empty
      last piece; both are blank, so the templates are the same. */
  function Lines(text: string): (r: seq<string>)
    ensures |r| > 0
  {
    if text == [] then [""]
    else
      var rest := Lines(text[1..]);
      if IsBreak(text[0]) then [""] + rest
      else [[text[0]] + rest[0]] + rest[1..]
  }

  /** No piece holds a line break. */
  lemma {:induction false} LinesHaveNoBreak(text: string)
    ensures forall i :: 0 <= i < |Lines(text)| ==> NoBreak(Lines(text)[i])
  {
    if text != [] {
      LinesHaveNoBreak(text[1..]);
      var rest := Lines(text[1..]);
      if !IsBreak(text[0]) {
        var first := [text[0]] + rest[0];
        assert NoBreak(first) by {
          forall k | 0 <= k < |first| ensures !IsBreak(first[k]) {
            if k > 0 { assert first[k] == rest[0][k - 1]; }
          }
        }
        assert forall i :: 1 <= i < |Lines(text)| ==> Lines(text)[i] == rest[i];
      } else {
        assert forall i :: 1 <= i < |Lines(text)| ==> Lines(text)[i] == rest[i - 1];
      }
    }
  }

  /** A text without line breaks is one line. */
  lemma {:induction false} LinesOfLine(s: string)
    requires NoBreak(s)
    ensures Lines(s) == [s]
  {
    if s != [] {
      LinesOfLine(s[1..]);
      assert [s[0]] + s[1..] == s;
    }
  }

  /** A line break in front starts a new, empty line. */
  lemma LinesConsBreak(x: char, t: string)
    requires IsBreak(x)
    ensures Lines([x] + t) == [""] + Lines(t)
  {
    assert ([x] + t)[1..] == t;
  }

  /** Any other character in front joins the first line. */
  lemma LinesConsText(x: char, t: string)
    requires !IsBreak(x)
    ensures Lines([x] + t) == [[x] + Lines(t)[0]] + Lines(t)[1..]
  {
    assert ([x] + t)[1..] == t;
  }

  lemma ConsAssoc<T>(h: T, a: seq<T>, b: seq<T>)
    ensures [h] + (a + b) == ([h] + a) + b
  {
  }

  lemma DropFirstAppend<T>(a: seq<T>, b: seq<T>)
    requires a != []
    ensures (a + b)[0] == a[0] && (a + b)[1..] == a[1..] + b
  {
  }

  /** A character in front of two texts whose lines differ by a suffix keeps
      that suffix: the step of LinesSplit. */
  lemma LinesPrepend(x: char, tail: string, mid: string, more: seq<string>)
    requires Lines(mid) == Lines(tail) + more
    ensures Lines([x] + mid) == Lines([x] + tail) + more
  {
    var rest := Lines(tail);
    if IsBreak(x) {
      LinesConsBreak(x, mid);
      LinesConsBreak(x, tail);
      ConsAssoc("", rest, more);
    } else {
      LinesConsText(x, mid);
      LinesConsText(x, tail);
      DropFirstAppend(rest, more);
      ConsAssoc([x] + rest[0], rest[1..], more);
    }
  }

  /** Splitting at a line break splits the lines. */
  lemma {:induction false} LinesSplit(a: string, c: char, b: string)
    requires IsBreak(c)
    ensures Lines(a + [c] + b) == Lines(a) + Lines(b)
  {
    if a == [] {
      assert a + [c] + b == [c] + b;
      LinesConsBreak(c, b);
      assert Lines([]) == [""];
    } else {
      var tail := a[1..];
      LinesSplit(tail, c, b);
      LinesPrepend(a[0], tail, tail + [c] + b, Lines(b));
      assert [a[0]] + tail == a;
      assert [a[0]] + (tail + [c] + b) == a + [c] + b;
    }
  }

  /** The stripped lines that are not blank, in order: the comprehension in
      load_message_templates. */
  function NonBlank(lines: seq<string>): (r: seq<string>)
    ensures |r| <= |lines|
    ensures forall i :: 0 <= i < |r| ==> Stripped(r[i]) && r[i] != []
  {
    if lines == [] then [] else KeptLine(lines[0]) + NonBlank(lines[1..])
  }

  /** What one line adds to the templates: its stripped text unless blank. */
  function KeptLine(line: string): seq<string>
  {
    var stripped := Strip(line);
    if stripped == [] then [] else [stripped]
  }

  lemma NonBlankCons(line: string, rest: seq<string>)
    ensures NonBlank([line] + rest) == KeptLine(line) + NonBlank(rest)
  {
    assert ([line] + rest)[1..] == rest;
  }

  lemma {:induction false} NonBlankAppend(a: seq<string>, b: seq<string>)
    ensures NonBlank(a + b) == NonBlank(a) + NonBlank(b)
  {
    if a != [] {
      var h, t := a[0], a[1..];
      assert a == [h] + t;
      assert a + b == [h] + (t + b);
      NonBlankAppend(t, b);
      NonBlankCons(h, t + b);
      NonBlankCons(h, t);
      var k, x, y := KeptLine(h), NonBlank(t), NonBlank(b);
      assert k + (x + y) == (k + x) + y;
    } else {
      assert a + b == b;
    }
  }

  /** The templates of a file's contents. */
  function Templates(text: string): seq<string>
  {
    NonBlank(Lines(text))
  }

  /** The templates of two texts joined at a line break are those of the first
      followed by those of the second: order is kept and no line is merged. */
  lemma TemplatesSplit(a: string, c: char, b: string)
    requires IsBreak(c)
    ensures Templates(a + [c] + b) == Templates(a) + Templates(b)
  {
    LinesSplit(a, c, b);
    NonBlankAppend(Lines(a), Lines(b));
  }

  /** One line gives its stripped text, or nothing when it is blank. */
  lemma TemplatesOfLine(s: string)
    requires NoBreak(s)
    ensures Templates(s) == if AllSpace(s) then [] else [Strip(s)]
  {
    LinesOfLine(s);
    assert [s][1..] == [];
  }

  /** load_message_templates: any failure to open or read the file (None)
      gives no templates. */
  function LoadTemplates(contents: Option<string>): (r: seq<string>)
    ensures contents.None? ==> r == []
    ensures forall i :: 0 <= i < |r| ==> Stripped(r[i]) && r[i] != []
  {
    match contents
    case None => []
    case Some(text) => Templates(text)
  }

  /** A line that is already stripped and not blank is one template. */
  lemma TemplateLine(s: string)
    requires NoBreak(s) && Stripped(s) && s != []
    ensures Templates(s) == [s]
  {
    TemplatesOfLine(s);
    StripIdempotent(s);
    StripExact([], s, []);
    assert [] + s + [] == s;
  }

  /** A stripped, non-blank line before a line break is the first template. */
  lemma PrependTemplate(a: string, rest: string)
    requires NoBreak(a) && Stripped(a) && a != []
    ensures Templates(a + "\n" + rest) == [a] + Templates(rest)
  {
    TemplateLine(a);
    assert a + "\n" + rest == a + ['\n'] + rest;
    TemplatesSplit(a, '\n', rest);
  }

  /** Three stripped, non-blank lines give themselves, in order. */
  lemma ThreeTemplates(a: string, b: string, c: string)
    requires NoBreak(a) && Stripped(a) && a != []
    requires NoBreak(b) && Stripped(b) && b != []
    requires NoBreak(c) && Stripped(c) && c != []
    ensures Templates(a + "\n" + b + "\n" + c) == [a, b, c]
  {
    var bc := b + "\n" + c;
    assert Templates(bc) == [b, c] by {
      TemplateLine(c);
      PrependTemplate(b, c);
    }
    assert Templates(a + "\n" + bc) == [a] + [b, c] by {
      PrependTemplate(a, bc);
    }
    assert a + "\n" + b + "\n" + c == a + "\n" + bc;
  }

  /** The three-line file of the template test gives its three lines. */
  lemma ThreeLineFile()
    ensures var a, b, c := "Hello {name}!", "Welcome to our service.", "Have a great day!";
      LoadTemplates(Some(a + "\n" + b + "\n" + c)) == [a, b, c]
  {
    ThreeTemplates("Hello {name}!", "Welcome to our service.", "Have a great day!");
  }

  // ---------------------------------------------------------------------------
  // Placeholder substitution.

  /** `s.replace(pattern, replacement)`: the occurrences found scanning left to
      right, without overlap, are replaced. */
  function ReplaceAll(s: string, pattern: string, replacement: string): string
    requires pattern != []
    decreases |s|
  {
    if |s| < |pattern| then s
    else if s[..|pattern|] == pattern then replacement + ReplaceAll(s[|pattern|..], pattern, replacement)
    else [s[0]] + ReplaceAll(s[1..], pattern, replacement)
  }

  /** A text without the pattern is left alone. */
  lemma {:induction false} ReplaceAbsent(s: string, pattern: string, replacement: string)
    requires pattern != [] && !Contains(s, pattern)
    ensures ReplaceAll(s, pattern, replacement) == s
  {
    if |s| >= |pattern| {
      assert !StartsWith(s, pattern);
      ReplaceAbsent(s[1..], pattern, replacement);
      assert [s[0]] + s[1..] == s;
    }
  }

  /** The opening and the closing brace of a placeholder. */
  const LBrace: char := 123 as char
  const RBrace: char := 125 as char

  /** The key between an opening and a closing brace. */
  function Placeholder(key: string): (p: string)
    ensures p != [] && p[0] == LBrace
  {
    [LBrace] + key + [RBrace]
  }

  /** The loop of select_random_message: each item of data in turn replaces
      its placeholder with str(value). */
  function Substitute(message: string, items: Entries): string
    decreases |items|
  {
    if items == [] then message
    else Substitute(ReplaceAll(message, Placeholder(items[0].0), ToStr(items[0].1)), items[1..])
  }

  predicate BraceFree(s: string)
  {
    forall i :: 0 <= i < |s| ==> s[i] != LBrace && s[i] != RBrace
  }

  /** A template read as plain text and placeholders. */
  datatype Segment = Text(text: string) | Hole(key: string)

  /** Text without braces, placeholders of keys without braces. */
  predicate WellFormed(segments: seq<Segment>)
  {
    segments == [] ||
    ((match segments[0]
      case Text(t) => BraceFree(t)
      case Hole(k) => BraceFree(k))
     && WellFormed(segments[1..]))
  }

  function Render(segments: seq<Segment>): string
  {
    if segments == [] then ""
    else
      (match segments[0]
       case Text(t) => t
       case Hole(k) => Placeholder(k))
      + Render(segments[1..])
  }

  /** Every placeholder of `key` becomes the text `value`. */
  function Fill(segments: seq<Segment>, key: string, value: string): (r: seq<Segment>)
    ensures |r| == |segments|
  {
    if segments == [] then []
    else [if segments[0] == Hole(key) then Text(value) else segments[0]] + Fill(segments[1..], key, value)
  }

  function FillAll(segments: seq<Segment>, items: Entries): seq<Segment>
    decreases |items|
  {
    if items == [] then segments
    else FillAll(Fill(segments, items[0].0, ToStr(items[0].1)), items[1..])
  }

  /** The keys of the placeholders left in a template. */
  function HoleKeys(segments: seq<Segment>): set<string>
  {
    if segments == [] then {}
    else (if segments[0].Hole? then {segments[0].key} else {}) + HoleKeys(segments[1..])
  }

  /** Items whose keys and str(value)s hold no brace. */
  predicate BraceFreeItems(items: Entries)
  {
    forall i :: 0 <= i < |items| ==> BraceFree(items[i].0) && BraceFree(ToStr(items[i].1))
  }

  /** Where the pattern does not start, the scan keeps one character. */
  lemma ReplaceStep(s: string, pattern: string, replacement: string)
    requires pattern != [] && s != [] && !StartsWith(s, pattern)
    ensures ReplaceAll(s, pattern, replacement) == [s[0]] + ReplaceAll(s[1..], pattern, replacement)
  {
    if |s| < |pattern| {
      assert [s[0]] + s[1..] == s;
    }
  }

  /** Scanning text without an opening brace finds no placeholder in it. */
  lemma {:induction false} ReplaceSkipsText(a: string, b: string, key: string, value: string)
    requires forall i :: 0 <= i < |a| ==> a[i] != LBrace
    ensures ReplaceAll(a + b, Placeholder(key), value) == a + ReplaceAll(b, Placeholder(key), value)
  {
    if a != [] {
      var p := Placeholder(key);
      var s := a + b;
      assert s[0] == a[0];
      assert !StartsWith(s, p) by {
        if |p| <= |s| { assert s[..|p|][0] != p[0]; }
      }
      ReplaceStep(s, p, value);
      assert s[1..] == a[1..] + b;
      ReplaceSkipsText(a[1..], b, key, value);
      assert [a[0]] + a[1..] == a;
    } else {
      assert a + b == b;
    }
  }

  /** A placeholder of another brace-free key does not match at its own opening brace. */
  lemma OtherPlaceholder(j: string, key: string, b: string)
    requires BraceFree(j) && BraceFree(key) && j != key
    ensures var s := Placeholder(j) + b;
      |s| < |Placeholder(key)| || s[..|Placeholder(key)|] != Placeholder(key)
  {
    var s := Placeholder(j) + b;
    var p := Placeholder(key);
    if |s| >= |p| {
      var w := s[..|p|];
      if |j| == |key| {
        var i :| 0 <= i < |j| && j[i] != key[i];
        assert w[i + 1] == j[i] && p[i + 1] == key[i];
      } else if |j| < |key| {
        assert w[|j| + 1] == RBrace && p[|j| + 1] == key[|j|];
      } else {
        assert w[|key| + 1] == j[|key|] && p[|key| + 1] == RBrace;
      }
    }
  }

  /** At a placeholder of another brace-free key, the scan steps over it. */
  lemma ReplaceOtherHole(k: string, rest: string, key: string, value: string)
    requires BraceFree(k) && BraceFree(key) && k != key
    ensures ReplaceAll(Placeholder(k) + rest, Placeholder(key), value)
      == Placeholder(k) + ReplaceAll(rest, Placeholder(key), value)
  {
    var p := Placeholder(key);
    var s := Placeholder(k) + rest;
    OtherPlaceholder(k, key, rest);
    ReplaceStep(s, p, value);
    var tail := k + [RBrace];
    assert s[1..] == tail + rest;
    ReplaceSkipsText(tail, rest, key, value);
    assert [s[0]] + tail == Placeholder(k);
  }

  /** At a placeholder, the scan replaces it when it is the key's and steps
      over it otherwise. */
  lemma ReplaceHole(k: string, rest: string, key: string, value: string)
    requires BraceFree(k) && BraceFree(key)
    ensures ReplaceAll(Placeholder(k) + rest, Placeholder(key), value)
      == (if k == key then value else Placeholder(k)) + ReplaceAll(rest, Placeholder(key), value)
  {
    var p := Placeholder(key);
    var s := Placeholder(k) + rest;
    if k == key {
      assert s[..|p|] == p;
      assert s[|p|..] == rest;
    } else {
      ReplaceOtherHole(k, rest, key, value);
    }
  }

  /** Replacing the placeholders of one key in a rendered template is filling
      that key's holes. */
  lemma {:induction false} ReplaceRendered(segments: seq<Segment>, key: string, value: string)
    requires WellFormed(segments) && BraceFree(key)
    ensures ReplaceAll(Render(segments), Placeholder(key), value) == Render(Fill(segments, key, value))
  {
    var p := Placeholder(key);
    if segments != [] {
      var rest := segments[1..];
      ReplaceRendered(rest, key, value);
      assert Fill(segments, key, value)[1..] == Fill(rest, key, value);
      match segments[0]
      case Text(t) =>
        ReplaceSkipsText(t, Render(rest), key, value);
      case Hole(k) =>
        ReplaceHole(k, Render(rest), key, value);
    }
  }

  lemma {:induction false} FillWellFormed(segments: seq<Segment>, key: string, value: string)
    requires WellFormed(segments) && BraceFree(value)
    ensures WellFormed(Fill(segments, key, value))
    ensures HoleKeys(Fill(segments, key, value)) == HoleKeys(segments) - {key}
  {
    if segments != [] {
      FillWellFormed(segments[1..], key, value);
      assert Fill(segments, key, value)[1..] == Fill(segments[1..], key, value);
    }
  }

  /** Substituting items into a rendered template fills their holes, in order;
      the holes left are those of keys not among the items. */
  lemma {:induction false} SubstituteRendered(segments: seq<Segment>, items: Entries)
    requires WellFormed(segments) && BraceFreeItems(items)
    decreases |items|
    ensures Substitute(Render(segments), items) == Render(FillAll(segments, items))
    ensures WellFormed(FillAll(segments, items))
    ensures HoleKeys(FillAll(segments, items)) == HoleKeys(segments) - Keys(items)
  {
    if items != [] {
      var key, value := items[0].0, ToStr(items[0].1);
      ReplaceRendered(segments, key, value);
      FillWellFormed(segments, key, value);
      var rest := items[1..];
      assert BraceFreeItems(rest) by {
        forall i | 0 <= i < |rest| ensures BraceFree(rest[i].0) && BraceFree(ToStr(rest[i].1)) {
          assert rest[i] == items[i + 1];
        }
      }
      SubstituteRendered(Fill(segments, key, value), rest);
      KeysPrepend(key, items[0].1, rest);
      assert [(key, items[0].1)] + rest == items;
    }
  }

  /** A template of plain text alone renders without braces. */
  lemma {:induction false} RenderTextBraceFree(segments: seq<Segment>)
    requires WellFormed(segments) && HoleKeys(segments) == {}
    ensures BraceFree(Render(segments))
  {
    if segments != [] {
      var rest := segments[1..];
      RenderTextBraceFree(rest);
      var t := segments[0].text;
      var s := t + Render(rest);
      assert forall i :: 0 <= i < |s| ==> s[i] == (if i < |t| then t[i] else Render(rest)[i - |t|]);
    }
  }

  lemma {:induction false} NoPlaceholderInBraceFree(m: string, key: string)
    requires BraceFree(m)
    ensures !Contains(m, Placeholder(key))
  {
    var p := Placeholder(key);
    assert |p| <= |m| ==> m[..|p|][0] == m[0];
    if m != [] {
      assert BraceFree(m[1..]) by {
        assert forall i :: 0 <= i < |m| - 1 ==> m[1..][i] == m[i + 1];
      }
      NoPlaceholderInBraceFree(m[1..], key);
    }
  }

  /** The substitution leaves no placeholder behind: when the template is plain
      text and placeholders, every placeholder's key is a key of data, and no
      key or str(value) holds a brace, the message has no brace at all, and so
      no '{key}' of any key. */
  lemma NoPlaceholderLeft(segments: seq<Segment>, items: Entries)
    requires WellFormed(segments) && BraceFreeItems(items)
    requires HoleKeys(segments) <= Keys(items)
    ensures BraceFree(Substitute(Render(segments), items))
    ensures forall key :: !Contains(Substitute(Render(segments), items), Placeholder(key))
  {
    SubstituteRendered(segments, items);
    RenderTextBraceFree(FillAll(segments, items));
    var m := Substitute(Render(segments), items);
    forall key ensures !Contains(m, Placeholder(key)) {
      NoPlaceholderInBraceFree(m, key);
    }
  }

  /** Without that assumption a placeholder can survive: "{{name}}" with name
      set to "name" becomes "{name}". */
  lemma NestedBracesLeavePlaceholder()
    ensures Substitute("{{name}}", [("name", Str("name"))]) == "{name}"
    ensures Contains(Substitute("{{name}}", [("name", Str("name"))]), Placeholder("name"))
  {
    var p := Placeholder("name");
    var s := "{{name}}";
    assert s[..|p|] != p by { assert s[1] != p[1]; }
    assert s[1..][..|p|] == p;
    assert s[1..][|p|..] == [RBrace];
    assert ReplaceAll([RBrace], p, "name") == [RBrace];
    assert ReplaceAll(s, p, "name") == "{name}";
    assert StartsWith("{name}", p);
  }

  /** select_random_message, with `pick` the index random.choice chooses
      (reduced modulo the number of templates). Data that is truthy but not a
      dict has no `items` and raises. */
  function Select(templates: seq<string>, data: Value, pick: nat): Result<string, Exception>
  {
    if templates == [] then Ok("Default message")
    else
      var message := templates[pick % |templates|];
      if !Truthy(data) then Ok(message)
      else if data.Dict? then Ok(Substitute(message, data.entries))
      else Err(NoAttribute(data, "items"))
  }

  method SelectRandomMessage(templates: seq<string>, data: Value, pick: nat) returns (r: Result<string, Exception>)
    ensures r == Select(templates, data, pick)
    ensures templates == [] ==> r == Ok("Default message")
    ensures templates != [] && !Truthy(data) ==> r.Ok? && r.value in templates
  {
    if templates == [] {
      return Ok("Default message");
    }
    var message := templates[pick % |templates|];
    if Truthy(data) {
      if !data.Dict? {
        return Err(NoAttribute(data, "items"));
      }
      var items := data.entries;
      var i := 0;
      while i < |items|
        invariant 0 <= i <= |items|
        invariant Substitute(message, items[i..]) == Substitute(templates[pick % |templates|], items)
      {
        assert items[i..][1..] == items[i + 1..];
        message := ReplaceAll(message, Placeholder(items[i].0), ToStr(items[i].1));
        i := i + 1;
      }
    }
    return Ok(message);
  }

  /** Filling the one placeholder of name in a brace-free template with "John". */
  lemma NameSubstituted(prefix: string, suffix: string)
    requires BraceFree(prefix) && BraceFree(suffix)
    ensures Substitute(prefix + Placeholder("name") + suffix, [("name", Str("John"))]) == prefix + "John" + suffix
  {
    var items := [("name", Str("John"))];
    var last := [Text(suffix)];
    var seg := [Text(prefix), Hole("name")] + last;
    var filled := [Text(prefix), Text("John")] + last;
    assert Render(last) == suffix by { assert last[1..] == []; }
    assert Render(seg[1..]) == Placeholder("name") + suffix by { assert seg[1..][1..] == last; }
    assert Render(filled[1..]) == "John" + suffix by { assert filled[1..][1..] == last; }
    assert Render(seg) == prefix + Placeholder("name") + suffix;
    assert Render(filled) == prefix + "John" + suffix;
    assert WellFormed(seg) by {
      assert WellFormed(last) by { assert last[1..] == []; }
      assert seg[1..][1..] == last;
    }
    assert Fill(seg, "name", "John") == filled by {
      assert Fill(last, "name", "John") == last by { assert last[1..] == []; }
      assert Fill(seg[1..], "name", "John") == filled[1..] by { assert seg[1..][1..] == last; }
    }
    assert BraceFreeItems(items);
    SubstituteRendered(seg, items);
    assert FillAll(seg, items) == filled by { assert items[1..] == []; }
  }

  /** The filled greeting names John and holds no placeholder of name. */
  lemma JohnLeftNoPlaceholder(prefix: string, suffix: string)
    requires BraceFree(prefix) && BraceFree(suffix)
    ensures Contains(prefix + "John" + suffix, "John")
    ensures !Contains(prefix + "John" + suffix, Placeholder("name"))
  {
    var m := prefix + "John" + suffix;
    assert BraceFree(m) by {
      assert forall i :: 0 <= i < |m| ==>
        m[i] == (if i < |prefix| then prefix[i] else if i < |prefix| + 4 then "John"[i - |prefix|] else suffix[i - |prefix| - 4]);
    }
    NoPlaceholderInBraceFree(m, "name");
    assert OccursAt(m, "John", |prefix|) by { assert m[|prefix|..|prefix| + 4] == "John"; }
    ContainsAt(m, "John");
  }

  /** A template with one placeholder of name, filled with "John". */
  lemma NameFilled(prefix: string, suffix: string)
    requires BraceFree(prefix) && BraceFree(suffix)
    ensures var m := Substitute(prefix + Placeholder("name") + suffix, [("name", Str("John"))]);
      && m == prefix + "John" + suffix
      && Contains(m, "John")
      && !Contains(m, Placeholder("name"))
  {
    NameSubstituted(prefix, suffix);
    JohnLeftNoPlaceholder(prefix, suffix);
  }

  /** With the template test's data, whichever template is picked has its
      placeholder replaced by the name, and none is left. */
  lemma GreetingTemplates(templates: seq<string>, data: Value, pick: nat)
    requires templates == ["Hello {name}!", "Hi {name}, welcome!", "Greetings {name}!"]
    requires data == Dict([("name", Str("John"))])
    ensures var r := Select(templates, data, pick);
      && r.Ok?
      && r.value == ["Hello ", "Hi ", "Greetings "][pick % 3] + "John" + ["!", ", welcome!", "!"][pick % 3]
      && Contains(r.value, "John")
      && !Contains(r.value, Placeholder("name"))
  {
    var k := pick % 3;
    var prefix := ["Hello ", "Hi ", "Greetings "][k];
    var suffix := ["!", ", welcome!", "!"][k];
    assert templates[k] == prefix + Placeholder("name") + suffix;
    assert BraceFree(prefix) && BraceFree(suffix);
    NameFilled(prefix, suffix);
  }

  // ---------------------------------------------------------------------------
  // The platform task loops.

  datatype Platform = Telegram | Twitter | Discord

  function PlatformName(p: Platform): string
  {
    match p
    case Telegram => "telegram"
    case Twitter => "twitter"
    case Discord => "discord"
  }

  /** The one task type each loop handles. */
  function SendType(p: Platform): string
  {
    if p.Twitter? then "post_tweet" else "send_message"
  }

  /** What a platform answers to one send: the id of what was posted, or the
      str() of the exception the send raised. */
  datatype Delivery = Delivered(id: Value) | Failed(error: string)

  /** A message handed to a platform's SDK, with its chat or channel. */
  datatype Message = Message(target: Value, text: Value)

  /** What one platform's loop meets: whether its client was initialised, what
      reading a template file gives (None when opening or reading it fails),
      the index random.choice picks for task i, and what the SDK answers to
      task i's send. */
  datatype Env = Env(ready: bool, read: Value -> Option<string>, pick: nat -> nat, delivery: nat -> Delivery)

  function ErrorRecord(p: Platform, error: string): (r: Entries)
    ensures Tagged(p, r) && Get(r, "status", Null) == Str("error")
    ensures Get(r, "error", Null) == Str(error)
  {
    [("platform", Str(PlatformName(p))), ("status", Str("error")), ("error", Str(error))]
  }

  /** The record of send_telegram_message, post_tweet or send_discord_message. */
  function SendRecord(p: Platform, ready: bool, target: Value, d: Delivery): (r: Entries)
    ensures Tagged(p, r)
    ensures Get(r, "status", Null) == Str("success") <==> ready && d.Delivered? && !p.Discord?
  {
    match p
    case Telegram =>
      if !ready then ErrorRecord(p, "Telegram bot not initialized")
      else (match d
        case Delivered(_) => [("platform", Str("telegram")), ("status", Str("success")), ("chat_id", target)]
        case Failed(e) => [("platform", Str("telegram")), ("status", Str("error")), ("error", Str(e)), ("chat_id", target)])
    case Twitter =>
      if !ready then ErrorRecord(p, "Twitter API not initialized")
      else (match d
        case Delivered(id) => [("platform", Str("twitter")), ("status", Str("success")), ("tweet_id", id)]
        case Failed(e) => ErrorRecord(p, e))
    case Discord => ErrorRecord(p, "Discord bot implementation requires additional setup")
  }

  /** The pause after a send, as the exception it raises: asyncio.sleep for
      Telegram and Discord returns at once for a delay <= 0 and compares a
      non-number with 0; time.sleep for Twitter. */
  function Pause(p: Platform, delay: Value): Option<Exception>
  {
    if p.Twitter? then TimeSleep(delay)
    else
      match delay
      case Int(_) => None
      case Bool(_) => None
      case _ => Some(Exception("TypeError", "'<=' not supported between instances of '" + TypeName(delay) + "' and 'int'"))
  }

  /** One task of a loop: the messages handed to the SDK, then the record the
      loop appends or the exception that ends it. */
  datatype Step = Step(sent: seq<Message>, outcome: Result<Entries, Exception>)

  /** The body of the loop for task i: the task type, then for a send the
      target, the message (from a template file when one is named), the send
      and the pause. */
  function TaskStep(p: Platform, i: nat, task: Value, env: Env): Step
  {
    if !task.Dict? then Step([], Err(NoAttribute(task, "get")))
    else
      var t := task.entries;
      var kind := Get(t, "type", Null);
      if kind != Str(SendType(p)) then Step([], Ok(ErrorRecord(p, "Unknown task type: " + ToStr(kind))))
      else
        var target :=
          if p.Telegram? then Get(t, "chat_id", Null)
          else if p.Discord? then Get(t, "channel_id", Null)
          else Null;
        var file := Get(t, "template_file", Null);
        var message: Result<Value, Exception> :=
          if !Truthy(file) then Ok(Get(t, "message", Str("")))
          else
            match Select(LoadTemplates(env.read(file)), Get(t, "data", Dict([])), env.pick(i))
            case Ok(m) => Ok(Str(m))
            case Err(e) => Err(e);
        match message
        case Err(e) => Step([], Err(e))
        case Ok(text) =>
          var sent := if env.ready && !p.Discord? then [Message(target, text)] else [];
          var record := SendRecord(p, env.ready, target, env.delivery(i));
          match Pause(p, Get(t, "delay", Int(1)))
          case Some(e) => Step(sent, Err(e))
          case None => Step(sent, Ok(record))
  }

  /** Task i of a platform's loop, as TaskStep gives it. */
  function Steps(p: Platform, env: Env): (nat, Value) -> Step
  {
    (i: nat, task: Value) => TaskStep(p, i, task, env)
  }

  /** The results of a loop, the messages it handed to the SDK, and the
      exception that ended it early, if any. */
  datatype Batch = Batch(results: seq<Entries>, sent: seq<Message>, raised: Option<Exception>)

  /** run_telegram_tasks, run_twitter_tasks and run_discord_tasks, with
      `step(i, task)` the body of the loop for task i: one record per task, in
      order, until a task raises. */
  function Handled(step: (nat, Value) -> Step, tasks: seq<Value>): (b: Batch)
    ensures b.raised.None? ==> |b.results| == |tasks|
    ensures b.raised.Some? ==> |b.results| < |tasks|
    decreases |tasks|
  {
    if tasks == [] then Batch([], [], None)
    else
      var n := |tasks| - 1;
      var b := Handled(step, tasks[..n]);
      if b.raised.Some? then b
      else
        var s := step(n, tasks[n]);
        match s.outcome
        case Err(e) => Batch(b.results, b.sent + s.sent, Some(e))
        case Ok(record) => Batch(b.results + [record], b.sent + s.sent, None)
  }

  method RunPlatformTasks(step: (nat, Value) -> Step, tasks: seq<Value>) returns (b: Batch)
    ensures b == Handled(step, tasks)
  {
    var results: seq<Entries> := [];
    var sent: seq<Message> := [];
    var i := 0;
    while i < |tasks|
      invariant 0 <= i <= |tasks|
      invariant Handled(step, tasks[..i]) == Batch(results, sent, None)
    {
      assert tasks[..i + 1][..i] == tasks[..i];
      var s := step(i, tasks[i]);
      sent := sent + s.sent;
      if s.outcome.Err? {
        HandledStopsAt(step, tasks, i + 1);
        return Batch(results, sent, Some(s.outcome.error));
      }
      results := results + [s.outcome.value];
      i := i + 1;
    }
    assert tasks[..|tasks|] == tasks;
    return Batch(results, sent, None);
  }

  /** Once a task raises, the tasks after it are not executed. */
  lemma {:induction false} HandledStopsAt(step: (nat, Value) -> Step, tasks: seq<Value>, k: nat)
    requires k <= |tasks| && Handled(step, tasks[..k]).raised.Some?
    ensures Handled(step, tasks) == Handled(step, tasks[..k])
    decreases |tasks| - k
  {
    if k < |tasks| {
      assert tasks[..k + 1][..k] == tasks[..k];
      HandledStopsAt(step, tasks, k + 1);
    } else {
      assert tasks[..k] == tasks;
    }
  }

  /** Result i of a loop is task i's record; the exception that ends a loop
      early is the one of the task after the last result. */
  lemma {:induction false} HandledPerTask(step: (nat, Value) -> Step, tasks: seq<Value>)
    ensures var b := Handled(step, tasks);
      && (forall i :: 0 <= i < |b.results| ==> step(i, tasks[i]).outcome == Ok(b.results[i]))
      && (b.raised.Some? ==> step(|b.results|, tasks[|b.results|]).outcome == Err(b.raised.value))
    decreases |tasks|
  {
    if tasks != [] {
      var n := |tasks| - 1;
      HandledPerTask(step, tasks[..n]);
      assert forall i :: 0 <= i < n ==> tasks[..n][i] == tasks[i];
    }
  }

  /** A loop whose steps send nothing sends nothing. */
  lemma {:induction false} HandledSendsNothing(step: (nat, Value) -> Step, tasks: seq<Value>)
    requires forall i: nat, task :: step(i, task).sent == []
    ensures Handled(step, tasks).sent == []
    decreases |tasks|
  {
    if tasks != [] {
      HandledSendsNothing(step, tasks[..|tasks| - 1]);
    }
  }

  /** An unknown type is an error record tagged with the platform, and nothing
      is sent for it. */
  lemma UnknownTypeTagged(p: Platform, i: nat, task: Value, env: Env)
    requires task.Dict? && Get(task.entries, "type", Null) != Str(SendType(p))
    ensures TaskStep(p, i, task, env) ==
      Step([], Ok(ErrorRecord(p, "Unknown task type: " + ToStr(Get(task.entries, "type", Null)))))
  {
  }

  /** A record tagged with its platform, with status 'success' or 'error';
      Discord's are all errors. */
  predicate Tagged(p: Platform, record: Entries)
  {
    && |record| >= 2
    && record[0] == ("platform", Str(PlatformName(p)))
    && record[1].0 == "status"
    && (record[1].1 == Str("success") || record[1].1 == Str("error"))
    && (p.Discord? ==> record[1].1 == Str("error"))
  }

  lemma StepTagged(p: Platform, i: nat, task: Value, env: Env)
    ensures TaskStep(p, i, task, env).outcome.Ok? ==> Tagged(p, TaskStep(p, i, task, env).outcome.value)
  {
  }

  /** Every record a platform's loop appends is tagged with that platform. */
  lemma HandledTagged(p: Platform, tasks: seq<Value>, env: Env)
    ensures forall i :: 0 <= i < |Handled(Steps(p, env), tasks).results| ==>
      Tagged(p, Handled(Steps(p, env), tasks).results[i])
  {
    HandledPerTask(Steps(p, env), tasks);
    var b := Handled(Steps(p, env), tasks);
    forall i | 0 <= i < |b.results| ensures Tagged(p, b.results[i]) {
      assert Steps(p, env)(i, tasks[i]) == TaskStep(p, i, tasks[i], env);
      StepTagged(p, i, tasks[i], env);
    }
  }

  /** Nothing reaches an SDK that is not initialised, and nothing ever reaches
      Discord. */
  lemma NothingSentWithoutClient(p: Platform, tasks: seq<Value>, env: Env)
    requires !env.ready || p.Discord?
    ensures Handled(Steps(p, env), tasks).sent == []
  {
    forall i: nat, task ensures Steps(p, env)(i, task).sent == [] {
      assert Steps(p, env)(i, task) == TaskStep(p, i, task, env);
    }
    HandledSendsNothing(Steps(p, env), tasks);
  }

  // ---------------------------------------------------------------------------
  // run.

  /** `social_configs.get(name, {}).get('tasks', [])`. */
  function SectionTasks(socialConfigs: Value, p: Platform): Result<Value, Exception>
  {
    if !socialConfigs.Dict? then Err(NoAttribute(socialConfigs, "get"))
    else
      var section := Get(socialConfigs.entries, PlatformName(p), Dict([]));
      if !section.Dict? then Err(NoAttribute(section, "get"))
      else Ok(Get(section.entries, "tasks", List([])))
  }

  /** `for task in tasks`: a list gives its items, a dict its keys and a string
      its characters; anything else is not iterable. */
  function Iterate(v: Value): (r: Result<seq<Value>, Exception>)
    ensures v.List? ==> r == Ok(v.items)
  {
    match v
    case List(items) => Ok(items)
    case Dict(entries) => Ok(seq(|entries|, i requires 0 <= i < |entries| => Str(entries[i].0)))
    case Str(s) => Ok(seq(|s|, i requires 0 <= i < |s| => Str([s[i]])))
    case _ => Err(Exception("TypeError", "'" + TypeName(v) + "' object is not iterable"))
  }

  /** What one platform adds to run: nothing when its task list is falsy. */
  function Contribution(socialConfigs: Value, p: Platform, env: Env): Batch
  {
    match SectionTasks(socialConfigs, p)
    case Err(e) => Batch([], [], Some(e))
    case Ok(tasks) =>
      if !Truthy(tasks) then Batch([], [], None)
      else
        match Iterate(tasks)
        case Err(e) => Batch([], [], Some(e))
        case Ok(items) => Handled(Steps(p, env), items)
  }

  /** a, then b unless a raised. */
  function Then(a: Batch, b: Batch): Batch
  {
    if a.raised.Some? then a else Batch(a.results + b.results, a.sent + b.sent, b.raised)
  }

  /** run without dry_run: Telegram, then Twitter, then Discord. */
  function Ran(socialConfigs: Value, envs: Platform -> Env): Batch
  {
    Then(Contribution(socialConfigs, Telegram, envs(Telegram)),
         Then(Contribution(socialConfigs, Twitter, envs(Twitter)),
              Contribution(socialConfigs, Discord, envs(Discord))))
  }

  method RunSection(socialConfigs: Value, p: Platform, env: Env) returns (b: Batch)
    ensures b == Contribution(socialConfigs, p, env)
  {
    var tasks := SectionTasks(socialConfigs, p);
    if tasks.Err? {
      return Batch([], [], Some(tasks.error));
    }
    if !Truthy(tasks.value) {
      return Batch([], [], None);
    }
    var items := Iterate(tasks.value);
    if items.Err? {
      return Batch([], [], Some(items.error));
    }
    b := RunPlatformTasks(Steps(p, env), items.value);
  }

  /** run: nothing on a dry run; otherwise the three platforms' results
      extended in turn, and an exception from any of them propagates. */
  method Run(dryRun: bool, socialConfigs: Value, envs: Platform -> Env)
    returns (r: Result<seq<Entries>, Exception>, sent: seq<Message>)
    ensures dryRun ==> r == Ok([]) && sent == []
    ensures !dryRun ==>
      var b := Ran(socialConfigs, envs);
      && sent == b.sent
      && r == (if b.raised.Some? then Err(b.raised.value) else Ok(b.results))
  {
    if dryRun {
      return Ok([]), [];
    }
    var telegram := RunSection(socialConfigs, Telegram, envs(Telegram));
    if telegram.raised.Some? {
      assert Ran(socialConfigs, envs) == telegram;
      return Err(telegram.raised.value), telegram.sent;
    }
    var twitter := RunSection(socialConfigs, Twitter, envs(Twitter));
    if twitter.raised.Some? {
      assert Ran(socialConfigs, envs) == Batch(telegram.results + twitter.results, telegram.sent + twitter.sent, twitter.raised);
      return Err(twitter.raised.value), telegram.sent + twitter.sent;
    }
    var discord := RunSection(socialConfigs, Discord, envs(Discord));
    assert Ran(socialConfigs, envs) ==
      Batch(telegram.results + (twitter.results + discord.results), telegram.sent + (twitter.sent + discord.sent), discord.raised);
    sent := telegram.sent + (twitter.sent + discord.sent);
    if discord.raised.Some? {
      return Err(discord.raised.value), sent;
    }
    return Ok(telegram.results + (twitter.results + discord.results)), sent;
  }

  /** The platform's section exists and its task list is falsy. */
  predicate NoTasks(socialConfigs: Value, p: Platform)
  {
    SectionTasks(socialConfigs, p).Ok? && !Truthy(SectionTasks(socialConfigs, p).value)
  }

  /** The results of a run come in three blocks, Telegram's, Twitter's and
      Discord's, each tagged with its platform; a platform whose task list is
      empty or missing contributes an empty block. */
  lemma RunGroupedByPlatform(socialConfigs: Value, envs: Platform -> Env)
    requires Ran(socialConfigs, envs).raised.None?
    ensures exists tg, tw, dc ::
      && Ran(socialConfigs, envs).results == tg + tw + dc
      && (forall i :: 0 <= i < |tg| ==> Tagged(Telegram, tg[i]))
      && (forall i :: 0 <= i < |tw| ==> Tagged(Twitter, tw[i]))
      && (forall i :: 0 <= i < |dc| ==> Tagged(Discord, dc[i]))
      && (NoTasks(socialConfigs, Telegram) ==> tg == [])
      && (NoTasks(socialConfigs, Twitter) ==> tw == [])
      && (NoTasks(socialConfigs, Discord) ==> dc == [])
  {
    var telegram := Contribution(socialConfigs, Telegram, envs(Telegram));
    var twitter := Contribution(socialConfigs, Twitter, envs(Twitter));
    var discord := Contribution(socialConfigs, Discord, envs(Discord));
    ContributionTagged(socialConfigs, Telegram, envs(Telegram));
    ContributionTagged(socialConfigs, Twitter, envs(Twitter));
    ContributionTagged(socialConfigs, Discord, envs(Discord));
    assert telegram.raised.None? && twitter.raised.None?;
    assert Ran(socialConfigs, envs).results == telegram.results + (twitter.results + discord.results);
    assert telegram.results + (twitter.results + discord.results) == telegram.results + twitter.results + discord.results;
  }

  /** Every record of one platform's contribution is tagged with it, and a
      falsy task list contributes nothing. */
  lemma ContributionTagged(socialConfigs: Value, p: Platform, env: Env)
    ensures var b := Contribution(socialConfigs, p, env);
      forall i :: 0 <= i < |b.results| ==> Tagged(p, b.results[i])
    ensures NoTasks(socialConfigs, p) ==> Contribution(socialConfigs, p, env) == Batch([], [], None)
  {
    var b := Contribution(socialConfigs, p, env);
    match SectionTasks(socialConfigs, p)
    case Err(e) =>
      assert b == Batch([], [], Some(e));
    case Ok(tasks) =>
      if !Truthy(tasks) {
        assert b == Batch([], [], None);
      } else {
        assert !NoTasks(socialConfigs, p);
        match Iterate(tasks)
        case Err(e) =>
          assert b == Batch([], [], Some(e));
        case Ok(items) =>
          var handled := Handled(Steps(p, env), items);
          assert b == handled;
          HandledTagged(p, items, env);
      }
  }

  // ---------------------------------------------------------------------------
  // post_tweet without a client.

  /** post_tweet as written, up to its record: `__init__` sets `twitter_api`,
      and `twitter_client` is only assigned once a Twitter client was built, so
      without one, reading it raises instead of reaching the
      'Twitter API not initialized' record. */
  function PostTweetAsWritten(ready: bool, d: Delivery): (r: Result<Entries, Exception>)
    ensures r.Err? <==> !ready
  {
    if !ready then Err(Exception("AttributeError", "'SocialBots' object has no attribute 'twitter_client'"))
    else Ok(SendRecord(Twitter, true, Null, d))
  }

  /** Without a client, post_tweet as written raises where the record was meant. */
  lemma PostTweetWithoutClientRaises(d: Delivery)
    ensures PostTweetAsWritten(false, d).Err?
    ensures SendRecord(Twitter, false, Null, d) == ErrorRecord(Twitter, "Twitter API not initialized")
  {
  }

  /** In the model, a post_tweet task without a client yields the
      'Twitter API not initialized' record, sends nothing, and the loop goes on
      to the next task. */
  lemma TweetWithoutClientRecorded(i: nat, task: Value, env: Env)
    requires !env.ready && task.Dict?
    requires Get(task.entries, "type", Null) == Str("post_tweet")
    requires !Truthy(Get(task.entries, "template_file", Null))
    requires TimeSleep(Get(task.entries, "delay", Int(1))).None?
    ensures TaskStep(Twitter, i, task, env) == Step([], Ok(ErrorRecord(Twitter, "Twitter API not initialized")))
  {
  }
}
