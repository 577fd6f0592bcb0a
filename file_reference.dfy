/** A model of `FileReference`: a path bound to an optional project, with typed
    link-resolution entry points, the GitHub link rules, cross-project ordering
    and the advisory rename/create checks.

    The superclass `FilePathInfo` is not part of this model: its operations are
    the fields of a `PathOps` record and are left uninterpreted, so every
    property below holds whatever those operations do. */
module FileReferences {
  import opened Wrappers

  /** Identity of a bound IntelliJ project (Java compares projects by reference). */
  type ProjectId = nat

  /** An immutable path description; its structure belongs to `FilePathInfo`. */
  datatype PathInfo = PathInfo(text: string)

  /** A `FileReference`: a path plus the project it is bound to (`null` = `None`). */
  datatype FileReference = FileReference(info: PathInfo, project: Option<ProjectId>)

  // Names of the GitHub special paths and the suffix of a wiki repository,
  // declared in `FilePathInfo`.
  const WikiHomeName := "wiki"
  const GitHubIssuesName := "issues"
  const GitHubPullsName := "pulls"
  const GitHubPulseName := "pulse"
  const GitHubGraphsName := "graphs"
  const WikiHomeExtension := ".wiki"

  /** A link-reference rule handed to the path resolver. The two GitHub kinds
      are inner classes of `FileReference` and so carry the project of the
      reference that created them. */
  datatype Rule =
    | NullResolver
    | CallerRule(matchParts: seq<string>)
    | GitHubLink(owner: Option<ProjectId>, lastPart: string)
    | GitHubWikiExternal(owner: Option<ProjectId>, lastPart: string)
  {
    predicate IsGitHub() {
      GitHubLink? || GitHubWikiExternal?
    }

    /** The suffix both GitHub kinds pass to the generic rule: `("..", "..", lastPart)`. */
    function MatchParts(): seq<string>
      requires IsGitHub()
    {
      ["..", "..", lastPart]
    }
  }

  /** The operations of `FilePathInfo` this core relies on, uninterpreted. */
  datatype PathOps = PathOps(
    resolveLinkRef: (PathInfo, Option<string>, bool, bool, seq<Rule>) -> Option<PathInfo>,
    appendResolvers: (seq<Rule>, seq<Rule>) -> seq<Rule>,
    suffixMatched: (seq<string>, PathInfo, seq<string>, int) -> bool,
    isWikiHome: PathInfo -> bool,
    append: (PathInfo, string) -> PathInfo,
    fileName: PathInfo -> string,
    fullFilePath: PathInfo -> string,
    filePath: PathInfo -> string,
    path: PathInfo -> string,
    fromUrl: string -> PathInfo,
    withExt: (PathInfo, Option<string>) -> PathInfo,
    compare: (PathInfo, PathInfo) -> int,
    equivalent: (bool, bool, string, string) -> bool
  )

  /** The outcome of one `GithubRepo` URL call: a URL, or a `RuntimeException`. */
  datatype UrlCall = Url(url: string) | Throws

  /** A GitHub repository as the plugin sees it: `githubBaseUrl()` and `repoUrlFor("/")`. */
  datatype GithubRepo = GithubRepo(baseUrl: UrlCall, rootUrl: UrlCall)

  /** `getProjectComponent(project).getGithubRepo(path)`: `None` when there is no repository. */
  type RepoLookup = (ProjectId, string) -> Option<GithubRepo>

  /** The virtual file system, read only: the children of the parent of the file
      at a path, and the children of the directory at a path (`None` when that
      file or directory does not exist or no file resolver is installed). */
  datatype Vfs = Vfs(parentOf: string -> Option<set<string>>, directory: string -> Option<set<string>>)

  // ---------------------------------------------------------------------
  // Resolution entry points

  /** The protected `resolveLinkRef` override: resolve through the superclass and
      wrap a non-null result in a new reference bound to the same project. */
  function ResolveLinkRefWith(host: PathOps, self: FileReference, linkRef: Option<string>,
                              convertLinkRefs: bool, withAnchor: bool, rules: seq<Rule>): (r: Option<FileReference>)
    ensures r.None? <==> host.resolveLinkRef(self.info, linkRef, convertLinkRefs, withAnchor, rules).None?
    ensures r.Some? ==> r.value.project == self.project
    ensures r.Some? ==> r.value.info == host.resolveLinkRef(self.info, linkRef, convertLinkRefs, withAnchor, rules).value
  {
    match host.resolveLinkRef(self.info, linkRef, convertLinkRefs, withAnchor, rules)
    case None => None
    case Some(resolved) => Some(FileReference(resolved, self.project))
  }

  /** `resolveLinkRef(linkRef, convertGitHubWikiHome)`: no anchor, no extra rules. */
  function ResolveLinkRefConverting(host: PathOps, self: FileReference, linkRef: Option<string>, convert: bool): (r: Option<FileReference>)
    ensures r == ResolveLinkRefWith(host, self, linkRef, convert, false, [])
  {
    ResolveLinkRefWith(host, self, linkRef, convert, false, [])
  }

  /** `resolveLinkRefWithAnchor(linkRef, convertGitHubWikiHome)`: keeps the anchor. */
  function ResolveLinkRefWithAnchorConverting(host: PathOps, self: FileReference, linkRef: Option<string>, convert: bool): (r: Option<FileReference>)
    ensures r == ResolveLinkRefWith(host, self, linkRef, convert, true, [])
  {
    ResolveLinkRefWith(host, self, linkRef, convert, true, [])
  }

  /** `resolveLinkRef(linkRef)`. */
  function ResolveLinkRef(host: PathOps, self: FileReference, linkRef: Option<string>): (r: Option<FileReference>)
    ensures r == ResolveLinkRefWith(host, self, linkRef, false, false, [])
  {
    ResolveLinkRefConverting(host, self, linkRef, false)
  }

  /** `resolveLinkRefWithAnchor(linkRef)`. */
  function ResolveLinkRefWithAnchor(host: PathOps, self: FileReference, linkRef: Option<string>): (r: Option<FileReference>)
    ensures r == ResolveLinkRefWith(host, self, linkRef, false, true, [])
  {
    ResolveLinkRefWithAnchorConverting(host, self, linkRef, false)
  }

  /** `resolveLinkRefToWikiPage(linkRef)`: converts a wiki home link. */
  function ResolveLinkRefToWikiPage(host: PathOps, self: FileReference, linkRef: Option<string>): (r: Option<FileReference>)
    ensures r == ResolveLinkRefWith(host, self, linkRef, true, false, [])
  {
    ResolveLinkRefConverting(host, self, linkRef, true)
  }

  /** `resolveLinkRefWithAnchorToWikiPage(linkRef)`. */
  function ResolveLinkRefWithAnchorToWikiPage(host: PathOps, self: FileReference, linkRef: Option<string>): (r: Option<FileReference>)
    ensures r == ResolveLinkRefWith(host, self, linkRef, true, true, [])
  {
    ResolveLinkRefWithAnchorConverting(host, self, linkRef, true)
  }

  /** The five built-in GitHub rules of a reference bound to `project`, in the
      order `resolveExternalLinkRef` appends them. */
  function BuiltInRules(project: Option<ProjectId>): (rules: seq<Rule>)
    ensures |rules| == 5
    ensures forall i :: 0 <= i < |rules| ==> rules[i].IsGitHub() && rules[i].owner == project
  {
    [ GitHubLink(project, GitHubIssuesName),
      GitHubWikiExternal(project, WikiHomeName),
      GitHubLink(project, GitHubPullsName),
      GitHubLink(project, GitHubPulseName),
      GitHubLink(project, GitHubGraphsName) ]
  }

  /** The protected `resolveExternalLinkRef`: always converts link refs, and
      resolves with the caller's rules followed by the built-in GitHub rules. */
  function ResolveExternalLinkRefWith(host: PathOps, self: FileReference, linkRef: Option<string>,
                                      withAnchor: bool, rules: seq<Rule>): (r: Option<FileReference>)
    ensures r == ResolveLinkRefWith(host, self, linkRef, true, withAnchor,
                                    host.appendResolvers(rules, BuiltInRules(self.project)))
  {
    var resolved := host.resolveLinkRef(self.info, linkRef, true, withAnchor,
                                        host.appendResolvers(rules, BuiltInRules(self.project)));
    if resolved.Some? then Some(FileReference(resolved.value, self.project)) else None
  }

  /** The public `resolveExternalLinkRef(linkRef, withAnchor)`, which passes a
      single `null` resolver as the caller's rules. */
  function ResolveExternalLinkRefAnchored(host: PathOps, self: FileReference, linkRef: Option<string>, withAnchor: bool): (r: Option<FileReference>)
    ensures r == ResolveExternalLinkRefWith(host, self, linkRef, withAnchor, [NullResolver])
  {
    ResolveExternalLinkRefWith(host, self, linkRef, withAnchor, [NullResolver])
  }

  /** The public `resolveExternalLinkRef(linkRef)`: without the anchor. */
  function ResolveExternalLinkRef(host: PathOps, self: FileReference, linkRef: Option<string>): (r: Option<FileReference>)
    ensures r == ResolveExternalLinkRefAnchored(host, self, linkRef, false)
  {
    ResolveExternalLinkRefWith(host, self, linkRef, false, [NullResolver])
  }

  /** `withExt`: a new reference with another extension and the same project. */
  function WithExt(host: PathOps, self: FileReference, ext: Option<string>): (r: FileReference)
    ensures r.project == self.project
    ensures r.info == host.withExt(self.info, ext)
  {
    FileReference(host.withExt(self.info, ext), self.project)
  }

  lemma BuiltInRulesOrder(project: Option<ProjectId>)
    ensures var rules := BuiltInRules(project);
      && |rules| == 5
      && (forall i :: 0 <= i < 5 ==> rules[i].IsGitHub() && rules[i].owner == project)
      && (forall i :: 0 <= i < 5 ==> (rules[i].GitHubWikiExternal? <==> i == 1))
      && [rules[0].lastPart, rules[1].lastPart, rules[2].lastPart, rules[3].lastPart, rules[4].lastPart]
         == ["issues", "wiki", "pulls", "pulse", "graphs"]
  {
  }

  /** Every public resolution entry point that returns a reference returns one
      bound to the receiver's project. */
  lemma EntryPointsKeepProject(host: PathOps, self: FileReference, linkRef: Option<string>, convert: bool, withAnchor: bool)
    ensures var results := [ ResolveLinkRefConverting(host, self, linkRef, convert),
                             ResolveLinkRefWithAnchorConverting(host, self, linkRef, convert),
                             ResolveLinkRef(host, self, linkRef),
                             ResolveLinkRefWithAnchor(host, self, linkRef),
                             ResolveLinkRefToWikiPage(host, self, linkRef),
                             ResolveLinkRefWithAnchorToWikiPage(host, self, linkRef),
                             ResolveExternalLinkRefAnchored(host, self, linkRef, withAnchor),
                             ResolveExternalLinkRef(host, self, linkRef) ];
      forall i :: 0 <= i < |results| && results[i].Some? ==> results[i].value.project == self.project
  {
  }

  // ---------------------------------------------------------------------
  // The GitHub rules

  /** `isMatched` of both GitHub rule kinds: a bound project, a current path that
      is not a wiki home, and the generic suffix match of `("..", "..", lastPart)`. */
  function IsMatched(host: PathOps, rule: Rule, currentPath: PathInfo, linkRefParts: seq<string>, part: int): (r: bool)
    requires rule.IsGitHub()
    ensures r ==> rule.owner.Some? && !host.isWikiHome(currentPath)
    ensures rule.owner.Some? && !host.isWikiHome(currentPath) ==>
      (r <==> host.suffixMatched(["..", "..", rule.lastPart], currentPath, linkRefParts, part))
  {
    rule.owner.Some? && !host.isWikiHome(currentPath) && host.suffixMatched(rule.MatchParts(), currentPath, linkRefParts, part)
  }

  /** The repository key each rule looks up: the current path itself for the
      issues/pulls/pulse/graphs rules, and for the wiki rule the current path
      extended by its own file name with the wiki suffix. */
  function RepoKey(host: PathOps, rule: Rule, currentPath: PathInfo): (key: string)
    requires rule.IsGitHub()
    ensures rule.GitHubLink? ==> key == host.fullFilePath(currentPath)
    ensures rule.GitHubWikiExternal? ==>
      key == host.fullFilePath(host.append(currentPath, host.fileName(currentPath) + ".wiki"))
  {
    if rule.GitHubLink? then host.fullFilePath(currentPath)
    else host.fullFilePath(host.append(currentPath, host.fileName(currentPath) + WikiHomeExtension))
  }

  /** `computePath` of both GitHub rule kinds. A missing repository or a URL
      call that throws leaves the current path as it is. */
  function ComputePath(host: PathOps, repos: RepoLookup, rule: Rule, currentPath: PathInfo): (r: PathInfo)
    requires rule.IsGitHub() && rule.owner.Some?
    ensures var key := RepoKey(host, rule, currentPath);
      repos(rule.owner.value, key).None? ==> r == currentPath
    ensures var key := RepoKey(host, rule, currentPath);
      rule.GitHubLink? && repos(rule.owner.value, key).Some? ==>
        r == match repos(rule.owner.value, key).value.baseUrl
             case Throws => currentPath
             case Url(u) => host.append(host.fromUrl(u), rule.lastPart)
    ensures var key := RepoKey(host, rule, currentPath);
      rule.GitHubWikiExternal? && repos(rule.owner.value, key).Some? ==>
        r == match repos(rule.owner.value, key).value.rootUrl
             case Throws => currentPath
             case Url(u) => host.fromUrl(u)
  {
    match repos(rule.owner.value, RepoKey(host, rule, currentPath))
    case None => currentPath
    case Some(repo) =>
      if rule.GitHubLink? then
        (match repo.baseUrl
         case Throws => currentPath
         case Url(u) => host.append(host.fromUrl(u), rule.lastPart))
      else
        (match repo.rootUrl
         case Throws => currentPath
         case Url(u) => host.fromUrl(u))
  }

  /** Neither GitHub rule ever matches for a reference without a project, nor
      from a wiki home, whatever the link reference is. */
  lemma RulesNeedProjectAndNonWikiHome(host: PathOps, project: Option<ProjectId>, currentPath: PathInfo,
                                       linkRefParts: seq<string>, part: int)
    requires project.None? || host.isWikiHome(currentPath)
    ensures forall i :: 0 <= i < |BuiltInRules(project)| ==>
      !IsMatched(host, BuiltInRules(project)[i], currentPath, linkRefParts, part)
  {
  }

  /** `computePath` never propagates a failure of the URL calls: its result is
      the current path or the path built from a URL the repository returned. */
  lemma ComputePathIsTotal(host: PathOps, repos: RepoLookup, rule: Rule, currentPath: PathInfo)
    requires rule.IsGitHub() && rule.owner.Some?
    ensures var r := ComputePath(host, repos, rule, currentPath);
      r == currentPath || exists u :: r == host.fromUrl(u) || r == host.append(host.fromUrl(u), rule.lastPart)
  {
  }

  // ---------------------------------------------------------------------
  // Ordering

  /** The argument of `compareTo`: any `FilePathInfo`, or a `FileReference`. */
  datatype Comparand = OtherPath(path: PathInfo) | OtherReference(ref: FileReference)
  {
    function Info(): PathInfo {
      if OtherPath? then path else ref.info
    }
  }

  /** `compareTo`: `-1` against a reference bound to a different project,
      otherwise the `FilePathInfo` ordering. */
  function CompareTo(host: PathOps, self: FileReference, other: Comparand): (r: int)
    ensures other.OtherReference? && other.ref.project != self.project ==> r == -1
    ensures !(other.OtherReference? && other.ref.project != self.project) ==> r == host.compare(self.info, other.Info())
  {
    if other.OtherPath? || self.project == other.ref.project then host.compare(self.info, other.Info()) else -1
  }

  /** Across projects each reference compares as less than the other, so the
      ordering is not antisymmetric there. */
  lemma CrossProjectOrderBothLess(host: PathOps, a: FileReference, b: FileReference)
    requires a.project != b.project
    ensures CompareTo(host, a, OtherReference(b)) == -1 && CompareTo(host, b, OtherReference(a)) == -1
  {
  }

  // ---------------------------------------------------------------------
  // Advisory existence checks (they create and delete nothing)

  /** `canRenameFileTo`: needs a project; a rename the host calls equivalent to
      the current name (a case change) is allowed; otherwise the file's parent
      must exist and have no child of the new name. */
  function CanRenameFileTo(host: PathOps, vfs: Vfs, self: FileReference, newName: string): (r: bool)
    ensures self.project.None? ==> !r
    ensures self.project.Some? && host.equivalent(false, false, host.fileName(self.info), newName) ==> r
    ensures self.project.Some? && !host.equivalent(false, false, host.fileName(self.info), newName) ==>
      (r <==> vfs.parentOf(host.filePath(self.info)).Some? && newName !in vfs.parentOf(host.filePath(self.info)).value)
  {
    if self.project.None? then false
    else if host.equivalent(false, false, host.fileName(self.info), newName) then true
    else match vfs.parentOf(host.filePath(self.info))
      case None => false
      case Some(children) => newName !in children
  }

  /** `canCreateFile(newName)`: a project, an existing directory, no child of that name. */
  function CanCreateFile(host: PathOps, vfs: Vfs, self: FileReference, newName: string): (r: bool)
    ensures r <==> self.project.Some? && vfs.directory(host.path(self.info)).Some?
                   && newName !in vfs.directory(host.path(self.info)).value
  {
    if self.project.None? then false
    else match vfs.directory(host.path(self.info))
      case None => false
      case Some(children) => newName !in children
  }

  /** `canCreateFile()`: the same test for the reference's own file name. */
  function CanCreateOwnFile(host: PathOps, vfs: Vfs, self: FileReference): (r: bool)
    ensures r == CanCreateFile(host, vfs, self, host.fileName(self.info))
  {
    CanCreateFile(host, vfs, self, host.fileName(self.info))
  }

  /** When the file's parent is the directory at the reference's path, the
      rename check is the create check plus the case-change shortcut. */
  lemma RenameIsCreateOrCaseChange(host: PathOps, vfs: Vfs, self: FileReference, newName: string)
    requires vfs.parentOf(host.filePath(self.info)) == vfs.directory(host.path(self.info))
    ensures CanRenameFileTo(host, vfs, self, newName) <==>
      CanCreateFile(host, vfs, self, newName)
      || (self.project.Some? && host.equivalent(false, false, host.fileName(self.info), newName))
  {
  }
}
