/**
 * The GitHub helpers: picking a repository's cover image from its root
 * listing, and turning raw repository records into the records the
 * project cards show. Every network answer is an input: a response
 * that is not `ok`, or one whose reading throws, is a `Fetch` failure.
 */
module GitHub {
  import opened Wrappers
  import opened Text

  const Username: string := "Ali-ysf-dev"
  const OpenGraphPrefix: string := "https://opengraph.githubassets.com/1/"
  const NoDescription: string := "No description available"

  /** The outcome of one request: a non-ok status, an exception, or the parsed body. */
  datatype Fetch<T> = NotOk(status: int) | Threw | Ok(body: T)

  /** One entry of a repository's root contents listing. */
  datatype ContentEntry = ContentEntry(kind: string, name: string, downloadUrl: Option<string>)

  /** The fields of a repository record that the page reads; JSON `null` is `None`. */
  datatype RawRepo = RawRepo(
    id: int, name: string, description: Option<string>, language: Option<string>,
    topics: Option<seq<string>>, stargazersCount: int, forksCount: int,
    homepage: Option<string>, htmlUrl: string, updatedAt: string, fork: bool)

  /** A project card's record, as the list endpoint builds it. */
  datatype Project = Project(
    id: int, title: string, shortDescription: string, image: string, tags: seq<string>,
    featured: bool, liveUrl: Option<string>, codeUrl: string, stars: int, forks: int,
    updatedAt: string, language: Option<string>, isFork: bool)

  /** The record the single-repository endpoint builds. */
  datatype RepoDetail = RepoDetail(
    id: int, title: string, description: Option<string>, image: string, tags: seq<string>,
    liveUrl: Option<string>, codeUrl: string, stars: int, forks: int, language: Option<string>)

  /** JavaScript truthiness of a string that may be `null`: present and not empty. */
  predicate Truthy(o: Option<string>) {
    o.Some? && o.value != ""
  }

  /** The `find` test: a file whose lower-cased name ends in `.png`. */
  predicate IsPng(e: ContentEntry) {
    e.kind == "file" && EndsWith(Lower(e.name), ".png")
  }

  /** `Array.prototype.find`: the index of the first PNG file, if there is one. */
  function FirstPng(contents: seq<ContentEntry>): (r: Option<nat>)
    ensures r.Some? ==> r.value < |contents| && IsPng(contents[r.value])
    ensures r.Some? ==> forall j :: 0 <= j < r.value ==> !IsPng(contents[j])
    ensures r.None? ==> forall j :: 0 <= j < |contents| ==> !IsPng(contents[j])
  {
    if contents == [] then None
    else if IsPng(contents[0]) then Some(0)
    else
      match FirstPng(contents[1..])
      case Some(k) => Some(k + 1)
      case None => None
  }

  /** `findRepoCoverImage`: the first PNG's download URL; `null` when none matches or the request fails. */
  function FindRepoCoverImage(response: Fetch<seq<ContentEntry>>): (r: Option<string>)
    ensures !response.Ok? ==> r == None
  {
    match response
    case Ok(contents) =>
      (match FirstPng(contents)
       case Some(i) => contents[i].downloadUrl
       case None => None)
    case _ => None
  }

  /** The cover is the download URL of the first PNG file in the listing. */
  lemma CoverIsFirstPng(contents: seq<ContentEntry>, i: nat)
    requires i < |contents| && IsPng(contents[i])
    requires forall j :: 0 <= j < i ==> !IsPng(contents[j])
    ensures FindRepoCoverImage(Ok(contents)) == contents[i].downloadUrl
  {
  }

  /** A listing without a root PNG file gives no cover. */
  lemma NoPngNoCover(contents: seq<ContentEntry>)
    requires forall j :: 0 <= j < |contents| ==> !IsPng(contents[j])
    ensures FindRepoCoverImage(Ok(contents)) == None
  {
  }

  /** The Open Graph preview GitHub serves for a repository of the site's owner. */
  function FallbackImage(repoName: string): (r: string)
    ensures r == OpenGraphPrefix + Username + "/" + repoName
    ensures StartsWith(r, OpenGraphPrefix) && EndsWith(r, "/" + repoName)
  {
    var r := OpenGraphPrefix + Username + "/" + repoName;
    assert r[..|OpenGraphPrefix|] == OpenGraphPrefix;
    assert r[|r| - |"/" + repoName|..] == "/" + repoName;
    r
  }

  /** `coverImage || fallback`: the cover when there is one, else the Open Graph preview. */
  function ProjectImage(cover: Option<string>, repoName: string): (r: string)
    ensures Truthy(cover) ==> r == cover.value
    ensures !Truthy(cover) ==> r == FallbackImage(repoName)
  {
    OrElse(cover.GetOr(""), FallbackImage(repoName))
  }

  /** `[...(language ? [language.toLowerCase()] : [])]`. */
  function LanguageTag(language: Option<string>): (r: seq<string>)
    ensures |r| <= 1
    ensures Truthy(language) <==> r != []
    ensures r != [] ==> r[0] == Lower(language.value)
  {
    if Truthy(language) then [Lower(language.value)] else []
  }

  /** `repo.topics || []`. */
  function Topics(repo: RawRepo): seq<string> {
    repo.topics.GetOr([])
  }

  /** `slice(0, n)`: the first `n` elements, or all of them when there are fewer. */
  function Take(s: seq<string>, n: nat): (r: seq<string>)
    ensures |r| <= n && |r| <= |s|
    ensures r == s[..|r|]
    ensures |s| <= n ==> r == s
    ensures |r| == if |s| <= n then |s| else n
  {
    if |s| <= n then s else s[..n]
  }

  /** The list endpoint's tags: the lower-cased language, then at most three topics. */
  function ListTags(repo: RawRepo): (r: seq<string>)
    ensures |r| <= 4
    ensures var lang := LanguageTag(repo.language);
      && |r| == |lang| + (if |Topics(repo)| < 3 then |Topics(repo)| else 3)
      && r[..|lang|] == lang
      && r[|lang|..] == Topics(repo)[..|r| - |lang|]
  {
    LanguageTag(repo.language) + Take(Topics(repo), 3)
  }

  /** The detail endpoint's tags: the lower-cased language, then every topic. */
  function DetailTags(repo: RawRepo): seq<string> {
    LanguageTag(repo.language) + Topics(repo)
  }

  /** The list's tags are the detail's tags cut to at most one language and three topics. */
  lemma ListTagsArePrefix(repo: RawRepo)
    ensures ListTags(repo) == DetailTags(repo)[..|ListTags(repo)|]
    ensures |Topics(repo)| <= 3 ==> ListTags(repo) == DetailTags(repo)
  {
    var l := LanguageTag(repo.language);
    var t := Take(Topics(repo), 3);
    assert DetailTags(repo)[..|l| + |t|] == l + Topics(repo)[..|t|];
  }

  /** The per-repository transformation of `fetchGitHubRepos`, given that repository's listing. */
  function MapRepo(repo: RawRepo, contents: Fetch<seq<ContentEntry>>): (p: Project)
    ensures |p.tags| <= 4 && p.tags == ListTags(repo)
    ensures p.featured <==> repo.stargazersCount > 0
    ensures p.shortDescription == if Truthy(repo.description) then repo.description.value else NoDescription
    ensures p.liveUrl.Some? <==> Truthy(repo.homepage)
    ensures p.liveUrl.Some? ==> p.liveUrl == repo.homepage
    ensures Truthy(FindRepoCoverImage(contents)) ==> p.image == FindRepoCoverImage(contents).value
    ensures !Truthy(FindRepoCoverImage(contents)) ==> p.image == FallbackImage(repo.name)
  {
    Project(
      repo.id,
      repo.name,
      OrElse(repo.description.GetOr(""), NoDescription),
      ProjectImage(FindRepoCoverImage(contents), repo.name),
      ListTags(repo),
      repo.stargazersCount > 0,
      if Truthy(repo.homepage) then repo.homepage else None,
      repo.htmlUrl,
      repo.stargazersCount,
      repo.forksCount,
      repo.updatedAt,
      repo.language,
      repo.fork)
  }

  /** `repos.map(...)`: one card record per repository, each with the listing of its own name. */
  function MapAll(repos: seq<RawRepo>, contentsOf: string -> Fetch<seq<ContentEntry>>): (r: seq<Project>)
    ensures |r| == |repos|
    ensures forall i :: 0 <= i < |repos| ==> r[i] == MapRepo(repos[i], contentsOf(repos[i].name))
  {
    if repos == [] then []
    else [MapRepo(repos[0], contentsOf(repos[0].name))] + MapAll(repos[1..], contentsOf)
  }

  /** `fetchGitHubRepos`: the mapped list, in the order GitHub returned it; `[]` when the list request fails. */
  function FetchRepos(list: Fetch<seq<RawRepo>>, contentsOf: string -> Fetch<seq<ContentEntry>>): (r: seq<Project>)
    ensures !list.Ok? ==> r == []
    ensures list.Ok? ==> |r| == |list.body|
    ensures list.Ok? ==> forall i :: 0 <= i < |r| ==>
      && r[i].title == list.body[i].name && r[i].id == list.body[i].id
      && r[i] == MapRepo(list.body[i], contentsOf(list.body[i].name))
  {
    match list
    case Ok(repos) => MapAll(repos, contentsOf)
    case _ => []
  }

  /** `fetchGitHubRepo`: the detail record, with every topic; `null` when the request fails. */
  function FetchRepo(repoName: string, response: Fetch<RawRepo>, contents: Fetch<seq<ContentEntry>>): (r: Option<RepoDetail>)
    ensures r.Some? <==> response.Ok?
    ensures r.Some? ==> r.value.tags == DetailTags(response.body)
    ensures r.Some? ==> r.value.title == response.body.name && r.value.liveUrl == response.body.homepage
    ensures r.Some? && Truthy(FindRepoCoverImage(contents)) ==> r.value.image == FindRepoCoverImage(contents).value
    ensures r.Some? && !Truthy(FindRepoCoverImage(contents)) ==> r.value.image == FallbackImage(repoName)
  {
    match response
    case Ok(repo) =>
      Some(RepoDetail(
        repo.id,
        repo.name,
        repo.description,
        ProjectImage(FindRepoCoverImage(contents), repoName),
        DetailTags(repo),
        repo.homepage,
        repo.htmlUrl,
        repo.stargazersCount,
        repo.forksCount,
        repo.language))
    case _ => None
  }
}
