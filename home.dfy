/**
 * The home page's logic: tag colours, the hero title's split into
 * per-character spans, the registration of fade-in elements, the
 * projects section's loading / empty / cards choice and what each
 * project card shows.
 */
module Home {
  import opened Wrappers
  import opened Text
  import GitHub

  /** The five theme colours a tag can take. */
  const Palette: set<string> := {"primary", "secondary", "accent", "warning", "success"}

  /** `colorMap` of `getTagColor`, keyed by lower-cased tag. */
  const ColorMap: map<string, string> := map[
    "react" := "primary",
    "javascript" := "warning",
    "typescript" := "primary",
    "html" := "warning",
    "css" := "secondary",
    "frontend" := "primary",
    "freelance" := "accent",
    "featured" := "primary",
    "vbnet" := "accent",
    "sql" := "warning",
    "fullstack" := "secondary",
    "product-owner" := "primary",
    "medical" := "accent",
    "webapp" := "secondary",
    "scrum" := "warning",
    "mobile" := "accent",
    "pharmacy" := "secondary",
    "php" := "warning",
    "graduation" := "success",
    "academic" := "success",
    "java" := "warning",
    "python" := "secondary",
    "vue" := "success",
    "angular" := "primary",
    "node" := "success",
    "express" := "accent"
  ]

  /**
   * The names `Object.prototype` gives every object literal that are all
   * lower case, so that a lower-cased tag can hit them: the lookup
   * `colorMap[key]` finds them although `colorMap` does not define them.
   */
  const InheritedKeys: set<string> := {"constructor", "__proto__"}

  /**
   * What an inherited name's value turns into when it is used in turn as a
   * property key: the text of the `Object` function, or of the prototype object.
   */
  function InheritedKeyText(key: string): string {
    if key == "constructor" then "function Object() { [native code] }" else "[object Object]"
  }

  /**
   * `colorMap[tag.toLowerCase()] || 'accent'` as written: an inherited name
   * yields a truthy value that is not a colour, so `accent` is not chosen.
   */
  function GetTagColorAsWritten(tag: string): (r: string)
    ensures Lower(tag) in ColorMap ==> r == ColorMap[Lower(tag)]
    ensures Lower(tag) in InheritedKeys ==> r !in Palette
    ensures Lower(tag) !in ColorMap && Lower(tag) !in InheritedKeys ==> r == "accent"
  {
    var key := Lower(tag);
    if key in ColorMap then ColorMap[key]
    else if key in InheritedKeys then InheritedKeyText(key)
    else "accent"
  }

  /** The badge classes a tag gets with the lookup as written. */
  function TagClassAsWritten(tag: string): (r: string)
    ensures Lower(tag) in InheritedKeys ==> r == FallbackTagClass
    ensures Lower(tag) !in InheritedKeys ==> r == TagClass(tag)
  {
    TagClasses(GetTagColorAsWritten(tag)).GetOr(FallbackTagClass)
  }

  /**
   * A repository topic "constructor" gets no palette colour as written, and
   * so the grey fallback badge, where the own-property lookup gives `accent`.
   */
  lemma ConstructorTagMissesAccent()
    ensures GetTagColorAsWritten("constructor") != "accent" && GetTagColor("constructor") == "accent"
    ensures TagClassAsWritten("constructor") == FallbackTagClass
    ensures TagClass("constructor") == "bg-accent/10 text-accent"
  {
    assert Lower("constructor") == "constructor";
  }

  /** Away from the inherited names, the lookup as written and the own-property lookup agree. */
  lemma AsWrittenAgreesOffInherited(tag: string)
    requires Lower(tag) !in InheritedKeys
    ensures GetTagColorAsWritten(tag) == GetTagColor(tag)
    ensures TagClassAsWritten(tag) == TagClass(tag)
  {
  }

  /**
   * The colour of a tag as intended: its lower-cased form looked up among
   * `ColorMap`'s own entries, `accent` when absent. The cards use this one.
   */
  function GetTagColor(tag: string): (r: string)
    ensures Lower(tag) in ColorMap ==> r == ColorMap[Lower(tag)]
    ensures Lower(tag) !in ColorMap ==> r == "accent"
  {
    match Get(ColorMap, Lower(tag))
    case Some(c) => if c != "" then c else "accent"
    case None => "accent"
  }

  /** Every colour in the map is one of the palette's five. */
  lemma ColorMapInPalette(key: string)
    requires key in ColorMap
    ensures ColorMap[key] in Palette
  {
  }

  /** Every tag gets one of the five palette colours. */
  lemma TagColorInPalette(tag: string)
    ensures GetTagColor(tag) in Palette
  {
    if Lower(tag) in ColorMap {
      ColorMapInPalette(Lower(tag));
    }
  }

  /** The lookup ignores case: tags that lower-case alike get the same colour. */
  lemma TagColorIgnoresCase(a: string, b: string)
    requires Lower(a) == Lower(b)
    ensures GetTagColor(a) == GetTagColor(b)
  {
  }

  /** `tagClasses`: the badge classes for each palette colour. */
  function TagClasses(color: string): (r: Option<string>)
    ensures r.Some? <==> color in Palette
  {
    if color == "primary" then Some("bg-primary/10 text-primary")
    else if color == "secondary" then Some("bg-secondary/10 text-secondary")
    else if color == "accent" then Some("bg-accent/10 text-accent")
    else if color == "warning" then Some("bg-warning/10 text-warning")
    else if color == "success" then Some("bg-green-500/10 text-green-500")
    else None
  }

  const FallbackTagClass: string := "bg-text-secondary/10 text-text-secondary"

  /** `tagClasses[getTagColor(tag)] || fallback` with the intended lookup: every tag has palette classes. */
  function TagClass(tag: string): (r: string)
    ensures TagClasses(GetTagColor(tag)) == Some(r)
  {
    TagColorInPalette(tag);
    TagClasses(GetTagColor(tag)).GetOr(FallbackTagClass)
  }

  /** The fallback badge class is never used: every colour has its own classes. */
  lemma FallbackTagClassUnused(tag: string)
    ensures TagClasses(GetTagColor(tag)).Some?
    ensures TagClass(tag) != FallbackTagClass
  {
    TagColorInPalette(tag);
  }

  /** The text of one hero span: a space becomes `&nbsp;`, any other character stays. */
  function SpanText(c: char): (r: string)
    ensures c == ' ' ==> r == "&nbsp;"
    ensures c != ' ' ==> r == [c]
  {
    if c == ' ' then "&nbsp;" else [c]
  }

  /** `text.split('').map(...)`: one span per character, in order. */
  function HeroSpans(text: string): (r: seq<string>)
    ensures |r| == |text|
    ensures forall i :: 0 <= i < |text| ==> r[i] == SpanText(text[i])
  {
    if text == [] then [] else [SpanText(text[0])] + HeroSpans(text[1..])
  }

  /** Reading a span back: `&nbsp;` is a space, any other span its one character. */
  function SpanChar(span: string): char
    requires span != []
  {
    if span == "&nbsp;" then ' ' else span[0]
  }

  function ReadSpans(spans: seq<string>): (r: string)
    requires forall i :: 0 <= i < |spans| ==> spans[i] != []
    ensures |r| == |spans|
  {
    if spans == [] then [] else [SpanChar(spans[0])] + ReadSpans(spans[1..])
  }

  /** The split loses nothing: reading the spans back gives the title's text. */
  lemma {:induction false} HeroSpansRoundTrip(text: string)
    ensures ReadSpans(HeroSpans(text)) == text
  {
    if text != [] {
      HeroSpansRoundTrip(text[1..]);
      assert HeroSpans(text)[1..] == HeroSpans(text[1..]);
    }
  }

  /** A DOM element, by identity. */
  type ElementId = nat

  /** The ref callback's rule: append a present element that is not there yet. */
  function Registered(refs: seq<ElementId>, el: Option<ElementId>): (r: seq<ElementId>)
    ensures el.Some? && el.value !in refs ==> r == refs + [el.value]
    ensures el.None? || el.value in refs ==> r == refs
  {
    if el.Some? && el.value !in refs then refs + [el.value] else refs
  }

  predicate NoDuplicates(refs: seq<ElementId>) {
    forall i, j :: 0 <= i < j < |refs| ==> refs[i] != refs[j]
  }

  /** Registering keeps the list free of duplicates, and registering the same element again changes nothing. */
  lemma RegisteredKeepsDistinct(refs: seq<ElementId>, el: Option<ElementId>)
    requires NoDuplicates(refs)
    ensures NoDuplicates(Registered(refs, el))
    ensures Registered(Registered(refs, el), el) == Registered(refs, el)
    ensures el.Some? ==> el.value in Registered(refs, el)
  {
  }

  /** `fadeInRefs.current`: the elements the fade-in observer watches. */
  class FadeInRefs {
    var current: seq<ElementId>

    ghost predicate Valid()
      reads this
    {
      NoDuplicates(current)
    }

    constructor()
      ensures Valid() && current == []
    {
      current := [];
    }

    /** The ref callback `el => { if (el && !includes(el)) push(el) }`. */
    method Register(el: Option<ElementId>)
      requires Valid()
      modifies this
      ensures Valid()
      ensures current == Registered(old(current), el)
    {
      if el.Some? && el.value !in current {
        current := current + [el.value];
      }
    }
  }

  /** What one project card shows. */
  datatype CardView = CardView(
    title: string, image: string, description: string,
    tags: seq<string>, tagClasses: seq<string>,
    starBadge: Option<int>, featuredBadge: bool,
    liveDemo: Option<string>, codeUrl: string, codeFullWidth: bool)

  /**
   * A project card: at most four tags, the star count when starred, the demo
   * link when there is one. Tag badges use the intended lookup, which differs
   * from the page as written only on the inherited names.
   */
  function Card(p: GitHub.Project): (v: CardView)
    ensures |v.tags| <= 4 && |v.tags| <= |p.tags| && v.tags == p.tags[..|v.tags|]
    ensures |p.tags| <= 4 ==> v.tags == p.tags
    ensures |p.tags| > 4 ==> v.tags == p.tags[..4]
    ensures |v.tagClasses| == |v.tags|
    ensures forall i :: 0 <= i < |v.tags| ==> v.tagClasses[i] == TagClass(v.tags[i])
    ensures v.starBadge.Some? <==> p.stars > 0
    ensures v.starBadge.Some? ==> v.starBadge.value == p.stars
    ensures v.liveDemo.Some? <==> GitHub.Truthy(p.liveUrl)
    ensures v.codeFullWidth <==> v.liveDemo.None?
    ensures v.title == p.title && v.image == p.image && v.description == p.shortDescription
    ensures v.featuredBadge == p.featured
    ensures v.liveDemo.Some? ==> v.liveDemo == p.liveUrl
    ensures v.codeUrl == p.codeUrl
    ensures forall i :: 0 <= i < |v.tags| && Lower(v.tags[i]) !in InheritedKeys ==>
      v.tagClasses[i] == TagClassAsWritten(v.tags[i])
  {
    var shown := if |p.tags| <= 4 then p.tags else p.tags[..4];
    CardView(
      p.title, p.image, p.shortDescription,
      shown, seq(|shown|, i requires 0 <= i < |shown| => TagClass(shown[i])),
      if p.stars > 0 then Some(p.stars) else None,
      p.featured,
      if GitHub.Truthy(p.liveUrl) then p.liveUrl else None,
      p.codeUrl,
      !GitHub.Truthy(p.liveUrl))
  }

  /** The projects section: a spinner while loading, a notice when nothing came back, else the cards. */
  datatype ProjectsView = Spinner | NoProjects | Cards(cards: seq<CardView>)

  function ProjectsSection(loading: bool, projects: seq<GitHub.Project>): (v: ProjectsView)
    ensures loading <==> v == Spinner
    ensures v == NoProjects <==> !loading && projects == []
    ensures v.Cards? ==> |v.cards| == |projects| && forall i :: 0 <= i < |projects| ==> v.cards[i] == Card(projects[i])
  {
    if loading then Spinner
    else if projects == [] then NoProjects
    else Cards(seq(|projects|, i requires 0 <= i < |projects| => Card(projects[i])))
  }

  /** The projects the page shows and whether they are still loading. */
  class ProjectsState {
    var githubProjects: seq<GitHub.Project>
    var loadingProjects: bool

    constructor()
      ensures githubProjects == [] && loadingProjects
    {
      githubProjects := [];
      loadingProjects := true;
    }

    /** The mount effect: load the repositories, then stop loading. The loader never throws. */
    method LoadProjects(list: GitHub.Fetch<seq<GitHub.RawRepo>>, contentsOf: string -> GitHub.Fetch<seq<GitHub.ContentEntry>>)
      modifies this
      ensures githubProjects == GitHub.FetchRepos(list, contentsOf)
      ensures !loadingProjects
    {
      loadingProjects := true;
      githubProjects := GitHub.FetchRepos(list, contentsOf);
      loadingProjects := false;
    }
  }

  /** After loading, a failed request shows the empty notice, never cards or the spinner. */
  lemma FailedLoadShowsNotice(list: GitHub.Fetch<seq<GitHub.RawRepo>>, contentsOf: string -> GitHub.Fetch<seq<GitHub.ContentEntry>>)
    requires !list.Ok?
    ensures ProjectsSection(false, GitHub.FetchRepos(list, contentsOf)) == NoProjects
  {
  }
}
