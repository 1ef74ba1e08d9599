/** What the PDF exporters put in a reportlab story, kept as a sequence of
  * elements: which kind of element, in which paragraph style, with which
  * text. Fonts, colours, sizes and geometry are not part of the model, so a
  * spacer is just `Gap` and a horizontal rule just `Rule`. The building blocks
  * that every template shares live here: the base header, bullet lists,
  * per-item sections and skill chunks. */
module PdfElements {
  import opened Text
  import opened Resume
  import opened DateFormat

  /** The paragraph styles, by the role they play. */
  datatype Style =
    | ResumeTitle | ResumeMeta | Heading1 | Heading2 | Normal | NormalSmall | Bold
    | CreativeName | CreativeTitle | ClassicName | ClassicTitle | CompactName

  datatype Element =
    | Para(style: Style, text: String)
    /** A one-row `Table` whose cells are paragraphs. */
    | Row(cells: seq<Element>)
    /** A `Spacer`. */
    | Gap
    /** An `HRFlowable`. */
    | Rule
    /** A two-column `Table` holding a list of elements in each cell. */
    | Columns(left: seq<Element>, right: seq<Element>)

  /** `f"{format_date(start)}{sep}{format_date(end)}"` */
  function DateRange(start: String, end: String, sep: String): String {
    FormatDate(start) + sep + FormatDate(end)
  }

  /** `[el] if cond else []`: an element that is appended only when a field is truthy. */
  function When(cond: bool, el: Element): (r: seq<Element>)
    ensures |r| <= 1
  {
    if cond then [el] else []
  }

  /** `els if cond else []`: a section that is added only when its field is set. */
  function Optional(cond: bool, els: seq<Element>): (r: seq<Element>)
    ensures r == [] || r == els
  {
    if cond then els else []
  }

  /** `if cond: story.extend(els)` leaves `story + Optional(cond, els)`. */
  lemma ExtendIf(story: seq<Element>, cond: bool, els: seq<Element>)
    ensures (if cond then story + els else story) == story + Optional(cond, els)
  {
    if !cond {
      assert story + [] == story;
    }
  }

  /** `if cond: story.append(el)` leaves `story + When(cond, el)`. */
  lemma AppendIf(story: seq<Element>, cond: bool, el: Element)
    ensures (if cond then story + [el] else story) == story + When(cond, el)
  {
    if !cond {
      assert story + [] == story;
    }
  }

  /** Appending two pieces one after the other appends them together. */
  lemma AppendTwice(story: seq<Element>, a: seq<Element>, b: seq<Element>)
    ensures story + a + b == story + (a + b)
  {
  }

  lemma AppendThrice(story: seq<Element>, a: seq<Element>, b: seq<Element>, c: seq<Element>)
    ensures story + a + b + c == story + (a + b + c)
  {
  }

  /** `[x] if x else []` for a text field. */
  function IfSet(x: String): (r: seq<String>)
    ensures r == [] <==> x == ""
  {
    if x != "" then [x] else []
  }

  /** `desc[:n] + "..."` when `desc` is longer than `n`, else `desc`. */
  function Shorten(s: String, n: nat): (r: String)
    ensures |s| <= n ==> r == s
    ensures |s| > n ==> |r| == n + 3 && r[..n] == s[..n] && r[n..] == "..."
  {
    if |s| > n then s[..n] + "..." else s
  }

  /** One paragraph per entry of `xs`, each being `prefix` followed by the entry. */
  function Bullets(prefix: String, xs: seq<String>, style: Style): (r: seq<Element>)
    ensures |r| == |xs|
  {
    if xs == [] then [] else Bullets(prefix, xs[..|xs| - 1], style) + [Para(style, prefix + xs[|xs| - 1])]
  }

  /** The `k`-th bullet is the `k`-th entry behind the prefix. */
  lemma {:induction false} BulletsEach(prefix: String, xs: seq<String>, style: Style, k: nat)
    requires k < |xs|
    ensures Bullets(prefix, xs, style)[k] == Para(style, prefix + xs[k])
    decreases |xs|
  {
    if k < |xs| - 1 {
      BulletsEach(prefix, xs[..|xs| - 1], style, k);
    }
  }

  /** One more entry adds its bullet at the end of whatever precedes the bullets. */
  lemma BulletsSnoc(pre: seq<Element>, prefix: String, xs: seq<String>, i: nat, style: Style)
    requires i < |xs|
    ensures pre + Bullets(prefix, xs[..i + 1], style) == pre + Bullets(prefix, xs[..i], style) + [Para(style, prefix + xs[i])]
  {
    assert xs[..i + 1][..i] == xs[..i];
  }

  /** `for x in xs: els.append(Paragraph(prefix + x, style))` */
  method AppendBullets(els: seq<Element>, prefix: String, xs: seq<String>, style: Style)
    returns (out: seq<Element>)
    ensures out == els + Bullets(prefix, xs, style)
  {
    out := els;
    for i := 0 to |xs|
      invariant out == els + Bullets(prefix, xs[..i], style)
    {
      BulletsSnoc(els, prefix, xs, i, style);
      out := out + [Para(style, prefix + xs[i])];
    }
    assert xs[..|xs|] == xs;
  }

  /** The elements of every item of `xs` in turn, each followed by a spacer. */
  function Items<T>(xs: seq<T>, item: T -> seq<Element>): seq<Element> {
    if xs == [] then [] else Items(xs[..|xs| - 1], item) + item(xs[|xs| - 1]) + [Gap]
  }

  /** One more item adds its elements and a spacer at the end of whatever
    * precedes the items. */
  lemma ItemsSnoc<T>(pre: seq<Element>, xs: seq<T>, i: nat, item: T -> seq<Element>)
    requires i < |xs|
    ensures pre + Items(xs[..i + 1], item) == pre + Items(xs[..i], item) + item(xs[i]) + [Gap]
  {
    assert xs[..i + 1][..i] == xs[..i];
  }

  /** `for x in xs: els.extend(item(x)); els.append(Spacer(...))` */
  method AppendItems<T>(els: seq<Element>, xs: seq<T>, item: T -> seq<Element>)
    returns (out: seq<Element>)
    ensures out == els + Items(xs, item)
  {
    out := els;
    for i := 0 to |xs|
      invariant out == els + Items(xs[..i], item)
    {
      ItemsSnoc(els, xs, i, item);
      out := out + item(xs[i]) + [Gap];
    }
    assert xs[..|xs|] == xs;
  }

  /** `[xs[i:i+n] for i in range(start, len(xs), n)]` */
  function ChunksFrom<T>(xs: seq<T>, start: nat, n: nat): (r: seq<seq<T>>)
    requires n > 0
    decreases |xs| - start
  {
    if start >= |xs| then []
    else
      var end := if start + n <= |xs| then start + n else |xs|;
      [xs[start..end]] + ChunksFrom(xs, start + n, n)
  }

  function Concat<T>(xss: seq<seq<T>>): seq<T> {
    if xss == [] then [] else xss[0] + Concat(xss[1..])
  }

  /** The chunks are non-empty, at most `n` long, and give back the list in
    * order when put together again. */
  lemma {:induction false} ChunksPartition<T>(xs: seq<T>, start: nat, n: nat)
    requires n > 0 && start <= |xs|
    ensures Concat(ChunksFrom(xs, start, n)) == xs[start..]
    ensures forall k :: 0 <= k < |ChunksFrom(xs, start, n)| ==>
              0 < |ChunksFrom(xs, start, n)[k]| <= n
    decreases |xs| - start
  {
    var cs := ChunksFrom(xs, start, n);
    if start < |xs| {
      var end := if start + n <= |xs| then start + n else |xs|;
      if start + n <= |xs| {
        ChunksPartition(xs, start + n, n);
        assert xs[start..] == xs[start..end] + xs[start + n..];
      } else {
        assert ChunksFrom(xs, start + n, n) == [];
      }
      assert cs[1..] == ChunksFrom(xs, start + n, n);
    }
  }

  /** There are `ceil((|xs| - start) / n)` chunks. */
  lemma {:induction false} ChunksCount<T>(xs: seq<T>, start: nat, n: nat)
    requires n > 0 && start <= |xs|
    ensures |ChunksFrom(xs, start, n)| == (|xs| - start + n - 1) / n
    decreases |xs| - start
  {
    if start < |xs| {
      if start + n <= |xs| {
        ChunksCount(xs, start + n, n);
        DivStep(|xs| - start - 1, n);
      } else {
        assert ChunksFrom(xs, start + n, n) == [];
        DivOne(|xs| - start + n - 1, n);
      }
    }
  }

  /** `(a + n) / n == a / n + 1` */
  lemma DivStep(a: nat, n: nat)
    requires n > 0
    ensures (a + n) / n == a / n + 1
  {
    var q, r := a / n, a % n;
    assert a + n == (q + 1) * n + r;
    DivUnique(a + n, n, q + 1, r);
  }

  /** `a / n == 1` when `n <= a < 2 * n` */
  lemma DivOne(a: nat, n: nat)
    requires n > 0 && n <= a < 2 * n
    ensures a / n == 1
  {
    DivUnique(a, n, 1, a - n);
  }

  lemma DivUnique(a: int, n: int, q: int, r: int)
    requires n > 0 && a == q * n + r && 0 <= r < n
    ensures a / n == q
  {
    var q' := a / n;
    if q' > q {
      MulMonotone(q + 1, q', n);
    } else if q' < q {
      MulMonotone(q' + 1, q, n);
    }
  }

  lemma MulMonotone(a: int, b: int, n: int)
    requires a <= b && n > 0
    ensures a * n <= b * n
  {
  }

  /** One paragraph per chunk, the chunk's entries joined by `sep`. */
  function ChunkLines(chunks: seq<seq<String>>, sep: String, style: Style): (r: seq<Element>)
    ensures |r| == |chunks|
  {
    if chunks == [] then [] else [Para(style, Join(sep, chunks[0]))] + ChunkLines(chunks[1..], sep, style)
  }

  /** Chunk lines in one style contribute no text in another. */
  lemma {:induction false} TextsOfChunkLines(chunks: seq<seq<String>>, sep: String, lineStyle: Style, style: Style)
    requires lineStyle != style
    ensures Texts(ChunkLines(chunks, sep, lineStyle), style) == []
    decreases |chunks|
  {
    if chunks != [] {
      TextsOfChunkLines(chunks[1..], sep, lineStyle, style);
      TextsSingle(Para(lineStyle, Join(sep, chunks[0])), style);
      TextsAppend([Para(lineStyle, Join(sep, chunks[0]))], ChunkLines(chunks[1..], sep, lineStyle), style);
    }
  }

  /** `for i in range(0, len(xs), n): els.append(Paragraph(sep.join(xs[i:i+n]), style))` */
  method AppendChunks(els: seq<Element>, xs: seq<String>, n: nat, sep: String, style: Style)
    returns (out: seq<Element>)
    requires n > 0
    ensures out == els + ChunkLines(ChunksFrom(xs, 0, n), sep, style)
  {
    out := els;
    var i := 0;
    while i < |xs|
      invariant out + ChunkLines(ChunksFrom(xs, i, n), sep, style) == els + ChunkLines(ChunksFrom(xs, 0, n), sep, style)
      decreases |xs| - i
    {
      var chunk := Slice(xs, i, i + n);
      assert chunk == xs[i..if i + n <= |xs| then i + n else |xs|];
      out := out + [Para(style, Join(sep, chunk))];
      i := i + n;
    }
  }

  /** The texts of the paragraphs in style `style`, in order: with a heading
    * style, the section titles. */
  function Texts(els: seq<Element>, style: Style): seq<String> {
    if els == [] then []
    else
      var last := els[|els| - 1];
      Texts(els[..|els| - 1], style) + (if last.Para? && last.style == style then [last.text] else [])
  }

  lemma {:induction false} TextsAppend(a: seq<Element>, b: seq<Element>, style: Style)
    ensures Texts(a + b, style) == Texts(a, style) + Texts(b, style)
    decreases |b|
  {
    if b != [] {
      assert (a + b)[..|a + b| - 1] == a + b[..|b| - 1];
      assert (a + b)[|a + b| - 1] == b[|b| - 1];
      TextsAppend(a, b[..|b| - 1], style);
    } else {
      assert a + b == a;
    }
  }

  /** A single element contributes its text when it is a paragraph in `style`. */
  lemma TextsSingle(el: Element, style: Style)
    ensures Texts([el], style) == if el.Para? && el.style == style then [el.text] else []
  {
    assert [el][..0] == [];
  }

  lemma TextsWhen(cond: bool, el: Element, style: Style)
    ensures Texts(When(cond, el), style) == if cond && el.Para? && el.style == style then [el.text] else []
  {
    if cond {
      TextsSingle(el, style);
    }
  }

  /** Bullets in one style contribute no text in another. */
  lemma {:induction false} TextsOfBullets(prefix: String, xs: seq<String>, bulletStyle: Style, style: Style)
    requires bulletStyle != style
    ensures Texts(Bullets(prefix, xs, bulletStyle), style) == []
    decreases |xs|
  {
    if xs != [] {
      var init := Bullets(prefix, xs[..|xs| - 1], bulletStyle);
      TextsOfBullets(prefix, xs[..|xs| - 1], bulletStyle, style);
      TextsAppend(init, [Para(bulletStyle, prefix + xs[|xs| - 1])], style);
      TextsSingle(Para(bulletStyle, prefix + xs[|xs| - 1]), style);
    }
  }

  /** Bullets in the style asked for contribute one text per entry. */
  lemma {:induction false} BulletTexts(prefix: String, xs: seq<String>, style: Style)
    ensures |Texts(Bullets(prefix, xs, style), style)| == |xs|
    decreases |xs|
  {
    if xs != [] {
      BulletTexts(prefix, xs[..|xs| - 1], style);
      TextsAppend(Bullets(prefix, xs[..|xs| - 1], style), [Para(style, prefix + xs[|xs| - 1])], style);
      TextsSingle(Para(style, prefix + xs[|xs| - 1]), style);
    }
  }

  /** Elements with no text in `style` leave the texts of what precedes them as they are. */
  lemma TextsQuiet(a: seq<Element>, b: seq<Element>, style: Style)
    requires Texts(b, style) == []
    ensures Texts(a + b, style) == Texts(a, style)
  {
    TextsAppend(a, b, style);
    assert Texts(a, style) + [] == Texts(a, style);
  }

  /** Four pieces none of which holds a paragraph in `style` contribute no text. */
  lemma QuietPieces(a: seq<Element>, b: seq<Element>, c: seq<Element>, d: seq<Element>, style: Style)
    requires Texts(a, style) == [] && Texts(b, style) == [] && Texts(c, style) == [] && Texts(d, style) == []
    ensures Texts(a + b + c + d, style) == []
  {
    TextsAppend(a, b, style);
    TextsAppend(a + b, c, style);
    TextsAppend(a + b + c, d, style);
  }

  /** After a piece without text in `style`, only the rest speaks. */
  lemma OnlyLastSpeaks(a: seq<Element>, b: seq<Element>, style: Style)
    requires Texts(a, style) == []
    ensures Texts(a + b, style) == Texts(b, style)
  {
    TextsAppend(a, b, style);
    assert [] + Texts(b, style) == Texts(b, style);
  }

  /** Between two pieces without text in `style`, only the middle speaks. */
  lemma OnlyMiddleSpeaks(a: seq<Element>, b: seq<Element>, c: seq<Element>, style: Style)
    requires Texts(a, style) == [] && Texts(c, style) == []
    ensures Texts(a + b + c, style) == Texts(b, style)
  {
    OnlyLastSpeaks(a, b, style);
    TextsQuiet(a + b, c, style);
  }

  /** Of four pieces, when all but the third are without text in `style`,
    * only the third speaks. */
  lemma OnlyThirdSpeaks(a: seq<Element>, b: seq<Element>, c: seq<Element>, d: seq<Element>, style: Style)
    requires Texts(a, style) == [] && Texts(b, style) == [] && Texts(d, style) == []
    ensures Texts(a + b + c + d, style) == Texts(c, style)
  {
    OnlyMiddleSpeaks(a + b, c, d, style) by {
      TextsAppend(a, b, style);
    }
  }

  /** Two elements neither of which is a paragraph in `style` contribute no text. */
  lemma TextsPair(a: Element, b: Element, style: Style)
    requires !(a.Para? && a.style == style) && !(b.Para? && b.style == style)
    ensures Texts([a, b], style) == []
  {
    TextsAppend([a], [b], style);
    TextsSingle(a, style);
    TextsSingle(b, style);
    assert [a, b] == [a] + [b];
  }

  /** `[title] if present else []` */
  function TitleIf(present: bool, title: String): (r: seq<String>)
    ensures |r| <= 1
  {
    if present then [title] else []
  }

  /** An optional section shows its title exactly when it is added. */
  lemma OptionalTitle(cond: bool, els: seq<Element>, style: Style, title: String)
    requires cond ==> Texts(els, style) == [title]
    ensures Texts(Optional(cond, els), style) == TitleIf(cond, title)
  {
  }

  /** Adding an optional section to a story adds its title, when it is added,
    * after the titles already there. */
  lemma TitlesStep(story: seq<Element>, cond: bool, els: seq<Element>, style: Style,
                   title: String, titles: seq<String>)
    requires Texts(story, style) == titles
    requires cond ==> Texts(els, style) == [title]
    ensures Texts(story + Optional(cond, els), style) == titles + TitleIf(cond, title)
  {
    TextsAppend(story, Optional(cond, els), style);
    OptionalTitle(cond, els, style, title);
  }

  /** A section that opens with its title and holds no other paragraph in
    * the title's style has that one title. */
  lemma TitledSection(title: String, style: Style, rest: seq<Element>)
    requires Texts(rest, style) == []
    ensures Texts([Para(style, title)] + rest, style) == [title]
  {
    TextsAppend([Para(style, title)], rest, style);
    assert [Para(style, title)][..0] == [];
  }

  /** Items none of whose renderings uses `style` contribute no text. */
  lemma {:induction false} TextsOfItems<T>(xs: seq<T>, item: T -> seq<Element>, style: Style)
    requires forall x :: Texts(item(x), style) == []
    ensures Texts(Items(xs, item), style) == []
    decreases |xs|
  {
    if xs != [] {
      TextsOfItems(xs[..|xs| - 1], item, style);
      TextsAppend(Items(xs[..|xs| - 1], item), item(xs[|xs| - 1]), style);
      TextsAppend(Items(xs[..|xs| - 1], item) + item(xs[|xs| - 1]), [Gap], style);
    }
  }

  /** The contact fields of `add_header`, each behind its icon, the empty ones left out. */
  function Contacts(v: View): (r: seq<String>)
    ensures |r| <= 3
    ensures r == [] <==> v.phone == "" && v.email == "" && v.location == ""
  {
    (if v.phone != "" then ["📱 " + v.phone] else [])
    + (if v.email != "" then ["✉️ " + v.email] else [])
    + (if v.location != "" then ["📍 " + v.location] else [])
  }

  /** `BaseResumeExporter.add_header`: the name, the job title and the joined
    * contacts where present, then a spacer and a rule. */
  function Header(v: View): (r: seq<Element>)
    ensures 2 <= |r| <= 5 && r[|r| - 2..] == [Gap, Rule]
    ensures v.name != "" ==> r[0] == Para(ResumeTitle, v.name)
    ensures Contacts(v) != [] ==> |r| >= 3 && r[|r| - 3] == Para(ResumeMeta, Join(" | ", Contacts(v)))
  {
    var contacts := Contacts(v);
    When(v.name != "", Para(ResumeTitle, v.name))
      + When(v.jobTitle != "", Para(ResumeMeta, v.jobTitle))
      + When(contacts != [], Para(ResumeMeta, Join(" | ", contacts)))
      + [Gap, Rule]
  }

  /** The header holds no section title of any of the title styles. */
  lemma HeaderHasNoTitles(v: View)
    ensures Texts(Header(v), Heading1) == []
    ensures Texts(Header(v), Heading2) == []
    ensures Texts(Header(v), Bold) == []
  {
    HeaderTexts(v, Heading1);
    HeaderTexts(v, Heading2);
    HeaderTexts(v, Bold);
  }

  lemma HeaderTexts(v: View, style: Style)
    requires style != ResumeTitle && style != ResumeMeta
    ensures Texts(Header(v), style) == []
  {
    var contacts := Contacts(v);
    var a := When(v.name != "", Para(ResumeTitle, v.name));
    var b := When(v.jobTitle != "", Para(ResumeMeta, v.jobTitle));
    var c := When(contacts != [], Para(ResumeMeta, Join(" | ", contacts)));
    TextsWhen(v.name != "", Para(ResumeTitle, v.name), style);
    TextsWhen(v.jobTitle != "", Para(ResumeMeta, v.jobTitle), style);
    TextsWhen(contacts != [], Para(ResumeMeta, Join(" | ", contacts)), style);
    TextsPair(Gap, Rule, style);
    TextsAppend(a, b, style);
    TextsAppend(a + b, c, style);
    TextsAppend(a + b + c, [Gap, Rule], style);
  }
}
