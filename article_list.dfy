/**
 * The article list page of the blog frontend, as a projection of the fetched
 * articles: one structured-data element and one card per article, each card
 * showing a one-line preview of the content, one chip per tag and one link per
 * related resource.
 */
module ArticleList {
  import opened InsertionSet
  import opened JsString
  import opened Server

  /** A tag label on a card, keyed by the tag. */
  datatype TagChip = TagChip(key: string, text: string)

  /** A related-resource link on a card, keyed by its address. */
  datatype ResourceLink = ResourceLink(key: string, href: string, text: string)

  /** The data a card shows; layout and styling are not part of it. */
  datatype Card = Card(
    key: nat,
    imageSrc: string,
    imageAlt: string,
    category: string,
    headline: string,
    description: string,
    authorName: string,
    authorJobTitle: string,
    datePublished: string,
    readTime: string,
    tagChips: seq<TagChip>,
    resourceLinks: seq<ResourceLink>)

  /** The structured-data component instantiated for one article, keyed by its id. */
  datatype StructuredData = StructuredData(key: nat, article: Article)

  /** What the page renders from the fetched articles. */
  datatype Page = Page(structuredData: seq<StructuredData>, cards: seq<Card>)

  /**
   * The card's description: `content.split('\n')[0]`, the text before the
   * first newline, or the whole content when it has none.
   */
  function Preview(content: string): (p: string)
    ensures p <= content && '\n' !in p
    ensures '\n' !in content ==> p == content
    ensures '\n' in content ==>
      |p| < |content| && content[|p|] == '\n' && content == p + "\n" + content[|p| + 1..]
    ensures content == "" ==> p == ""
  {
    var parts := Split(content, '\n');
    if |parts| == 1 then
      parts[0]
    else
      assert content == parts[0] + "\n" + Join(parts[1..], '\n');
      assert content[..|parts[0]|] == parts[0];
      assert content[|parts[0]| + 1..] == Join(parts[1..], '\n');
      parts[0]
  }

  /** The preview is exactly the run of characters before the first newline. */
  lemma PreviewIsFirstLine(content: string)
    ensures Preview(content) == TakeUntil(content, '\n')
  {
    SplitHeadIsTakeUntil(content, '\n');
  }

  /** A known first line followed by a newline is the preview, whatever follows. */
  lemma PreviewOfLines(line: string, rest: string)
    requires '\n' !in line
    ensures Preview(line + "\n" + rest) == line
  {
    var s := line + "\n" + rest;
    var p := Preview(s);
    assert s[|line|] == '\n';
  }

  /** `article.tags.map(tag => <Chip key={tag} label={tag} />)` */
  function TagChips(tags: seq<string>): (chips: seq<TagChip>)
    ensures |chips| == |tags|
    ensures forall i :: 0 <= i < |tags| ==> chips[i].text == tags[i] && chips[i].key == tags[i]
  {
    seq(|tags|, i requires 0 <= i < |tags| => TagChip(tags[i], tags[i]))
  }

  /** The labels shown by a row of chips. */
  function ChipLabels(chips: seq<TagChip>): seq<string>
  {
    seq(|chips|, i requires 0 <= i < |chips| => chips[i].text)
  }

  /** The chips show the article's tags, all of them and in order. */
  lemma TagChipsShowTags(tags: seq<string>)
    ensures ChipLabels(TagChips(tags)) == tags
  {
  }

  /** The chip keys are distinct exactly when the article's tags are. */
  lemma TagChipKeysDistinct(tags: seq<string>)
    ensures NoDuplicates(seq(|tags|, i requires 0 <= i < |tags| => TagChips(tags)[i].key)) <==> NoDuplicates(tags)
  {
    assert seq(|tags|, i requires 0 <= i < |tags| => TagChips(tags)[i].key) == tags;
  }

  /** `article.relatedLinks.map(link => <Link key={link.url} href={link.url}>{link.title}</Link>)` */
  function ResourceLinks(links: seq<RelatedLink>): (anchors: seq<ResourceLink>)
    ensures |anchors| == |links|
    ensures forall i :: 0 <= i < |links| ==>
      anchors[i].href == links[i].url && anchors[i].text == links[i].title && anchors[i].key == links[i].url
  {
    seq(|links|, i requires 0 <= i < |links| => ResourceLink(links[i].url, links[i].url, links[i].title))
  }

  /** The related resource a rendered link stands for. */
  function LinkTarget(anchor: ResourceLink): RelatedLink
  {
    RelatedLink(anchor.text, anchor.href)
  }

  /** The rendered links give back the article's related links, all of them and in order. */
  lemma ResourceLinksShowRelatedLinks(links: seq<RelatedLink>)
    ensures seq(|links|, i requires 0 <= i < |links| => LinkTarget(ResourceLinks(links)[i])) == links
  {
  }

  /** The card of one article. */
  function CardOf(article: Article): (card: Card)
    ensures card.key == article.id
    ensures card.headline == article.title && card.imageAlt == article.title
    ensures card.description <= article.content && '\n' !in card.description
    ensures '\n' !in article.content ==> card.description == article.content
    ensures card.description == Preview(article.content)
    ensures card.tagChips == TagChips(article.tags) && ChipLabels(card.tagChips) == article.tags
    ensures card.resourceLinks == ResourceLinks(article.relatedLinks)
    ensures |card.resourceLinks| == |article.relatedLinks|
    ensures card.imageSrc == article.imageUrl && card.category == article.category
    ensures card.authorName == article.author && card.authorJobTitle == article.authorRole
    ensures card.datePublished == article.date && card.readTime == article.readTime
  {
    Card(
      article.id,
      article.imageUrl,
      article.title,
      article.category,
      article.title,
      Preview(article.content),
      article.author,
      article.authorRole,
      article.date,
      article.readTime,
      TagChips(article.tags),
      ResourceLinks(article.relatedLinks))
  }

  /** The whole page: structured data and cards, one of each per article, in article order. */
  function Render(articles: seq<Article>): (page: Page)
    ensures |page.structuredData| == |articles| && |page.cards| == |articles|
    ensures forall i :: 0 <= i < |articles| ==>
      page.structuredData[i] == StructuredData(articles[i].id, articles[i])
    ensures forall i :: 0 <= i < |articles| ==>
      page.cards[i].key == articles[i].id && page.cards[i] == CardOf(articles[i])
  {
    Page(
      seq(|articles|, i requires 0 <= i < |articles| => StructuredData(articles[i].id, articles[i])),
      seq(|articles|, i requires 0 <= i < |articles| => CardOf(articles[i])))
  }

  /** The ids of a sequence of articles, in order. */
  function Ids(articles: seq<Article>): seq<nat>
  {
    seq(|articles|, i requires 0 <= i < |articles| => articles[i].id)
  }

  /** The keys of the rendered cards. */
  function CardKeys(page: Page): seq<nat>
  {
    seq(|page.cards|, i requires 0 <= i < |page.cards| => page.cards[i].key)
  }

  /** Cards are keyed by article id, so their keys are distinct exactly when the ids are. */
  lemma CardKeysAreIds(articles: seq<Article>)
    ensures CardKeys(Render(articles)) == Ids(articles)
    ensures NoDuplicates(CardKeys(Render(articles))) <==> NoDuplicates(Ids(articles))
  {
  }

  /** The collection's ids are 1, 2 and 3: distinct, so every card of the served collection has its own key. */
  lemma ArticlesIdsDistinct()
    ensures Ids(Articles) == [1, 2, 3] && NoDuplicates(Ids(Articles))
  {
  }
}
