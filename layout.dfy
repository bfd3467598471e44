/**
 * The ordered list of (style, text) paragraphs that createPDF hands to the
 * document builder, and the output file it names.
 */
module Layout {
  import opened Wrappers
  import opened Feeds

  datatype Style = TitleStyle | AuthorStyle | BodyStyle

  datatype Block = Block(style: Style, text: string)

  /** The paragraph style of the k-th string of a flat triple list. */
  function StyleAt(k: nat): Style {
    if k % 3 == 0 then TitleStyle else if k % 3 == 1 then AuthorStyle else BodyStyle
  }

  const NoNewContent: string := "No new content :("
  const OutputDirectory: string := "pdfs/"

  /** The v1.0 placeholder: a single title-style paragraph. */
  const Placeholder: Block := Block(TitleStyle, NoNewContent)

  datatype Pdf = Pdf(directory: string, filename: string, blocks: seq<Block>)

  /** The paragraphs of a flat list: the k-th string in the style its position gives. */
  function Paragraphs(items: seq<string>): seq<Block> {
    seq(|items|, k requires 0 <= k < |items| => Block(StyleAt(k), items[k]))
  }

  /**
   * The `while counter < len(parsed)` loop of createPDF: a title, an author
   * and a body paragraph per triple, advancing by three. A list whose length
   * is not a multiple of three makes `parsed[counter+1]` or
   * `parsed[counter+2]` raise IndexError, and createPDF yields None.
   */
  method LayOut(items: seq<string>) returns (blocks: Option<seq<Block>>)
    ensures blocks.Some? <==> |items| % 3 == 0
    ensures blocks.Some? ==> blocks.value == Paragraphs(items)
  {
    var paras: seq<Block> := [];
    var counter := 0;
    while counter < |items|
      invariant counter <= |items| && counter % 3 == 0
      invariant |paras| == counter
      invariant forall k :: 0 <= k < counter ==> paras[k] == Block(StyleAt(k), items[k])
    {
      if counter + 2 >= |items| {
        return None;
      }
      paras := paras + [Block(TitleStyle, items[counter]), Block(AuthorStyle, items[counter + 1]),
                        Block(BodyStyle, items[counter + 2])];
      counter := counter + 3;
    }
    assert paras == Paragraphs(items);
    blocks := Some(paras);
  }

  lemma TripleStyles(j: nat)
    ensures StyleAt(3 * j) == TitleStyle && StyleAt(3 * j + 1) == AuthorStyle && StyleAt(3 * j + 2) == BodyStyle
  {
    var k := 3 * j;
    assert k % 3 == 0 && (k + 1) % 3 == 1 && (k + 2) % 3 == 2;
  }

  /** The three paragraphs of the j-th article of a flat list. */
  lemma ArticleBlock(articles: seq<Article>, j: nat)
    requires j < |articles|
    ensures |Paragraphs(Flatten(articles))| == 3 * |articles|
    ensures Paragraphs(Flatten(articles))[3 * j] == Block(TitleStyle, articles[j].title)
    ensures Paragraphs(Flatten(articles))[3 * j + 1] == Block(AuthorStyle, articles[j].details)
    ensures Paragraphs(Flatten(articles))[3 * j + 2] == Block(BodyStyle, articles[j].content)
  {
    TripleStyles(j);
    FlattenIndex(articles, j);
  }

  /**
   * Laid out from a list of articles, the j-th article gives paragraphs 3j,
   * 3j+1 and 3j+2: its title, its byline and its body, in that order, and
   * nothing else is laid out.
   */
  lemma ArticleBlocks(articles: seq<Article>)
    ensures |Paragraphs(Flatten(articles))| == 3 * |articles|
    ensures forall j :: 0 <= j < |articles| ==>
      && Paragraphs(Flatten(articles))[3 * j] == Block(TitleStyle, articles[j].title)
      && Paragraphs(Flatten(articles))[3 * j + 1] == Block(AuthorStyle, articles[j].details)
      && Paragraphs(Flatten(articles))[3 * j + 2] == Block(BodyStyle, articles[j].content)
  {
    forall j | 0 <= j < |articles|
      ensures Paragraphs(Flatten(articles))[3 * j] == Block(TitleStyle, articles[j].title)
      ensures Paragraphs(Flatten(articles))[3 * j + 1] == Block(AuthorStyle, articles[j].details)
      ensures Paragraphs(Flatten(articles))[3 * j + 2] == Block(BodyStyle, articles[j].content)
    {
      ArticleBlock(articles, j);
    }
  }
}
