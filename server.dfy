/**
 * The blog backend: the fixed article collection it serves, the two lists it
 * derives from that collection (distinct categories, distinct tags) and the
 * client-address classification its request logger prints.
 */
module Server {
  import opened InsertionSet
  import opened JsString

  /** One entry of an article's "related resources" list. */
  datatype RelatedLink = RelatedLink(title: string, url: string)

  /** One blog post, with the fields every record of the collection carries. */
  datatype Article = Article(
    id: nat,
    title: string,
    content: string,
    author: string,
    authorRole: string,
    date: string,
    imageUrl: string,
    category: string,
    readTime: string,
    tags: seq<string>,
    relatedLinks: seq<RelatedLink>)

  /*
   * The three article bodies. Each is a multi-line template literal in the
   * source; here it is written line by line, each line keeping the literal's
   * indentation and trailing blanks.
   */

  /** Body of article 1. */
  const ReactGuideContent: string :=
    "React continues to evolve as the leading JavaScript library for building user interfaces. \n"
    + "    In this comprehensive guide, we'll explore the latest features including React Server Components, \n"
    + "    Suspense for Data Fetching, and the new React hooks. Learn how to build performant, \n"
    + "    scalable applications using modern React practices and patterns.\n"
    + "    \n"
    + "    Key topics covered:\n"
    + "    \U{2022} Understanding React 18's concurrent features\n"
    + "    \U{2022} Working with Server Components\n"
    + "    \U{2022} Advanced state management techniques\n"
    + "    \U{2022} Performance optimization strategies"

  /** Body of article 2. */
  const MicroservicesContent: string :=
    "Microservices architecture has become the standard for building scalable backend systems. \n"
    + "    This article deep dives into implementing microservices using Node.js, exploring patterns, \n"
    + "    best practices, and real-world examples.\n"
    + "    \n"
    + "    We'll cover:\n"
    + "    \U{2022} Service discovery and registration\n"
    + "    \U{2022} Inter-service communication\n"
    + "    \U{2022} Database patterns for microservices\n"
    + "    \U{2022} Monitoring and logging strategies\n"
    + "    \U{2022} Deployment considerations"

  /** Body of article 3. */
  const AiDevelopmentContent: string :=
    "Artificial Intelligence is revolutionizing how we develop software. \n"
    + "    Learn how to leverage ChatGPT and other AI tools to enhance your development workflow, \n"
    + "    improve code quality, and accelerate project delivery.\n"
    + "    \n"
    + "    Topics covered:\n"
    + "    \U{2022} AI-assisted code generation\n"
    + "    \U{2022} Automated code review\n"
    + "    \U{2022} Natural language processing in apps\n"
    + "    \U{2022} Best practices for AI integration"

  /** The collection, loaded once and never changed; `GET /api/articles` serves it as is. */
  const Articles: seq<Article> := [
    Article(
      1,
      "Complete Guide to Modern React Development in 2024",
      ReactGuideContent,
      "Sarah Johnson",
      "Senior Frontend Engineer at TechCorp",
      "2024-03-15",
      "https://picsum.photos/800/400",
      "React",
      "8 min read",
      ["React", "JavaScript", "Web Development", "Frontend"],
      [RelatedLink("React Documentation", "https://react.dev"),
       RelatedLink("React GitHub", "https://github.com/facebook/react")]),
    Article(
      2,
      "Node.js Microservices Architecture: A Production-Ready Approach",
      MicroservicesContent,
      "Michael Chen",
      "Cloud Architecture Consultant",
      "2024-03-14",
      "https://picsum.photos/800/401",
      "Backend",
      "12 min read",
      ["Node.js", "Microservices", "Backend", "Architecture"],
      [RelatedLink("Node.js Best Practices", "https://nodejs.org/en/docs/guides"),
       RelatedLink("Microservices.io", "https://microservices.io")]),
    Article(
      3,
      "AI-Driven Development: Integrating ChatGPT in Modern Applications",
      AiDevelopmentContent,
      "Dr. Emily Rodriguez",
      "AI Research Lead",
      "2024-03-13",
      "https://picsum.photos/800/402",
      "AI",
      "10 min read",
      ["AI", "ChatGPT", "Machine Learning", "Development"],
      [RelatedLink("OpenAI Documentation", "https://openai.com/docs"),
       RelatedLink("AI Development Guide", "https://ai-patterns.dev")])
  ]

  // ---------------------------------------------------------------------------
  // Categories: `[...new Set(articles.map(article => article.category))]`
  // ---------------------------------------------------------------------------

  /** `articles.map(article => article.category)` */
  function CategoryColumn(articles: seq<Article>): (column: seq<string>)
    ensures |column| == |articles|
    ensures forall i :: 0 <= i < |articles| ==> column[i] == articles[i].category
  {
    seq(|articles|, i requires 0 <= i < |articles| => articles[i].category)
  }

  /** The distinct categories, in order of first appearance. */
  function Categories(articles: seq<Article>): (r: seq<string>)
    ensures NoDuplicates(r)
    ensures forall c :: c in r <==> exists a :: a in articles && a.category == c
    ensures |r| <= |articles|
  {
    var column := CategoryColumn(articles);
    assert forall c :: c in column <==> exists a :: a in articles && a.category == c by {
      forall c | c in column ensures exists a :: a in articles && a.category == c {
        var i :| 0 <= i < |column| && column[i] == c;
        assert articles[i] in articles;
      }
      forall c, a | a in articles && a.category == c ensures c in column {
        var i :| 0 <= i < |articles| && articles[i] == a;
        assert column[i] == c;
      }
    }
    FromSeq(column)
  }

  /**
   * Categories are listed in the order in which the collection first uses
   * them: the first article of an earlier category comes before the first
   * article of a later one.
   */
  lemma CategoriesFirstAppearance(articles: seq<Article>, i: nat, j: nat)
    requires i < j < |Categories(articles)|
    ensures Categories(articles)[i] in CategoryColumn(articles)
    ensures Categories(articles)[j] in CategoryColumn(articles)
    ensures FirstIndex(CategoryColumn(articles), Categories(articles)[i])
          < FirstIndex(CategoryColumn(articles), Categories(articles)[j])
  {
    FromSeqFirstOccurrenceOrder(CategoryColumn(articles), i, j);
  }

  /** The categories are what one pass over the collection collects, keeping each category the first time it is seen. */
  lemma CategoriesSinglePass(articles: seq<Article>)
    ensures Categories(articles) == FirstSeen(CategoryColumn(articles), {})
  {
    FromSeqIsFirstSeen(CategoryColumn(articles));
  }

  // ---------------------------------------------------------------------------
  // Tags: `[...new Set(articles.flatMap(article => article.tags))]`
  // ---------------------------------------------------------------------------

  /** `articles.flatMap(article => article.tags)`: article order, then tag order. */
  function AllTags(articles: seq<Article>): (r: seq<string>)
    ensures forall t :: t in r <==> exists a :: a in articles && t in a.tags
  {
    if articles == [] then []
    else
      var rest := AllTags(articles[1..]);
      assert forall a :: a in articles <==> a == articles[0] || a in articles[1..];
      articles[0].tags + rest
  }

  /** The distinct tags, in order of first appearance in the flattened tag list. */
  function Tags(articles: seq<Article>): (r: seq<string>)
    ensures NoDuplicates(r)
    ensures forall t :: t in r <==> exists a :: a in articles && t in a.tags
    ensures FromSeq(r) == r
  {
    FromSeqIdempotent(AllTags(articles));
    FromSeq(AllTags(articles))
  }

  /** Flattening a concatenation flattens each part in turn: article order, then tag order. */
  lemma {:induction false} AllTagsAppend(a: seq<Article>, b: seq<Article>)
    ensures AllTags(a + b) == AllTags(a) + AllTags(b)
  {
    if a == [] {
      assert a + b == b;
    } else {
      assert (a + b)[0] == a[0] && (a + b)[1..] == a[1..] + b;
      AllTagsAppend(a[1..], b);
      Associative(a[0].tags, AllTags(a[1..]), AllTags(b));
    }
  }

  /** The tag list, as a set, is the union of all articles' tags. */
  lemma TagsAreUnion(articles: seq<Article>)
    ensures (set t | t in Tags(articles)) == (set a, t | a in articles && t in a.tags :: t)
  {
  }

  /** Tags are listed in the order of their first occurrence in the flattened tag list. */
  lemma TagsFirstAppearance(articles: seq<Article>, i: nat, j: nat)
    requires i < j < |Tags(articles)|
    ensures Tags(articles)[i] in AllTags(articles) && Tags(articles)[j] in AllTags(articles)
    ensures FirstIndex(AllTags(articles), Tags(articles)[i])
          < FirstIndex(AllTags(articles), Tags(articles)[j])
  {
    FromSeqFirstOccurrenceOrder(AllTags(articles), i, j);
  }

  /** The tags are what one pass over the flattened tag list collects. */
  lemma TagsSinglePass(articles: seq<Article>)
    ensures Tags(articles) == FirstSeen(AllTags(articles), {})
  {
    FromSeqIsFirstSeen(AllTags(articles));
  }

  /** The collection's three categories are all different. */
  lemma ArticlesCategories()
    ensures Categories(Articles) == ["React", "Backend", "AI"]
  {
    var column := CategoryColumn(Articles);
    assert column == ["React", "Backend", "AI"];
    assert NoDuplicates(column);
    FromSeqOfDistinct(column);
  }

  /** The twelve tags of the collection, in article order and then tag order. */
  const ArticlesTagList: seq<string> := [
    "React", "JavaScript", "Web Development", "Frontend",
    "Node.js", "Microservices", "Backend", "Architecture",
    "AI", "ChatGPT", "Machine Learning", "Development"]

  /** Helper: the twelve tags are pairwise different. */
  lemma ArticlesTagListDistinct()
    ensures NoDuplicates(ArticlesTagList)
  {
  }

  /** No tag is shared between or repeated within the collection's articles, so all twelve are listed in source order. */
  lemma ArticlesTags()
    ensures Tags(Articles) == ArticlesTagList
  {
    var flat := AllTags(Articles);
    assert Articles[1..][1..] == Articles[2..] && Articles[2..][1..] == [];
    assert AllTags(Articles[2..]) == Articles[2].tags;
    assert AllTags(Articles[1..]) == Articles[1].tags + Articles[2].tags;
    assert flat == ArticlesTagList;
    ArticlesTagListDistinct();
    FromSeqOfDistinct(flat);
  }

  // ---------------------------------------------------------------------------
  // Client-address classification printed by the request logger
  // ---------------------------------------------------------------------------

  /** The four kinds of client address the logger distinguishes. */
  datatype IpType = LocalhostIPv6 | LocalhostIPv4 | IPv4MappedToIPv6 | RemoteIp

  /** The prefix of an IPv4 address written in IPv6 notation. */
  const MappedPrefix: string := "::ffff:"

  /**
   * The logger's chain of tests, in its order: the IPv6 loopback, the IPv4
   * loopback, an IPv4-mapped IPv6 address, anything else. The two loopback
   * literals do not start with the mapped prefix, so the classes are
   * characterised independently of the order of the tests.
   */
  function Classify(ip: string): (t: IpType)
    ensures t == LocalhostIPv6 <==> ip == "::1"
    ensures t == LocalhostIPv4 <==> ip == "127.0.0.1"
    ensures t == IPv4MappedToIPv6 <==> StartsWith(ip, MappedPrefix)
    ensures t == RemoteIp <==> ip != "::1" && ip != "127.0.0.1" && !StartsWith(ip, MappedPrefix)
  {
    assert !StartsWith("::1", MappedPrefix);
    assert !StartsWith("127.0.0.1", MappedPrefix) by {
      assert "127.0.0.1"[0] != MappedPrefix[0];
    }
    if ip == "::1" then LocalhostIPv6
    else if ip == "127.0.0.1" then LocalhostIPv4
    else if StartsWith(ip, MappedPrefix) then IPv4MappedToIPv6
    else RemoteIp
  }

  /** The text the logger prints for each class. */
  function IpTypeLabel(t: IpType): (text: string)
    ensures StartsWith(text, "localhost") <==> t == LocalhostIPv6 || t == LocalhostIPv4
  {
    assert !StartsWith("IPv4 mapped to IPv6", "localhost") by {
      assert "IPv4 mapped to IPv6"[0] != "localhost"[0];
    }
    assert !StartsWith("Remote IP", "localhost") by {
      assert "Remote IP"[0] != "localhost"[0];
    }
    match t
    case LocalhostIPv6 => "localhost (IPv6)"
    case LocalhostIPv4 => "localhost (IPv4)"
    case IPv4MappedToIPv6 => "IPv4 mapped to IPv6"
    case RemoteIp => "Remote IP"
  }

  /** Different classes print different texts, so the logged line determines the class. */
  lemma IpTypeLabelInjective(t: IpType, u: IpType)
    requires IpTypeLabel(t) == IpTypeLabel(u)
    ensures t == u
  {
  }
}
