# Markdown link references: file references and the resolve cache

This project models two pieces of the MultiMarkdown IntelliJ plugin and proves properties of them.

- **`FileReference`** is a file path bound to an optional project. It offers typed link-resolution entry points: plain, with anchor, to wiki page, and external. It also holds the GitHub link rules (issues, wiki, pulls, pulse, graphs), an ordering that is scoped by project, and two advisory checks, "can rename" and "can create". The model is pure. A `FileReference` is a value, and every entry point returns a new value bound to the same project.
- **`MultiMarkdownReference`** is a reference from a named element that memoizes its poly-variant resolution. The memo is keyed by the element's name. It is dropped when a change notification arrives that names the cached name or is the `null` wildcard. The model is a class with the two memo fields, the text range, a ghost count of strategy runs and a ghost count of listener registrations. The postconditions of the methods that change the memo (`multiResolve`, `resolve`, the listener and `invalidateResolveResults`) tie the new fields to the pure state machine in module `ResolveMemo`. That module also proves what holds across whole traces of calls. The resolution strategy and the missing-link lookup may throw, and the model states the state they leave behind.

The collaborators are passed in as parameters:

- The superclass `FilePathInfo` is the record `PathOps`, a set of uninterpreted operations (resolve, appendResolvers, suffix match, isWikiHome, append, file name, paths, withExt, compare, equivalent). Every property about `FileReference` therefore holds whatever those operations do.
- The GitHub repository lookup is an oracle `RepoLookup`. It returns no repository, or a repository whose two URL calls each give a URL or throw.
- The virtual file system is `Vfs`, two lookups that return the children of a directory. Each gives `None` when the file or directory does not exist.
- The element's current name, the resolution strategy `getMultiResolveResults`, and the project component's missing-link lookup are method parameters.

Points of the code's behaviour worth knowing:

- Across projects, `compareTo` returns `-1` ("less") in both directions (`CrossProjectOrderBothLess`), so the ordering is not antisymmetric there.
- The wiki rule's lookup key is the current path extended by its own file name plus `.wiki` (FileReference.java:155).
- `multiResolve` does not subscribe the listener. The subscription changes only in `addReferenceChangeListener`, `removeReferenceChangeListener` and `getMissingLinkElement` of this class.
- `multiResolve` stores the new name and range before it calls the strategy. A strategy that throws therefore leaves the new name beside the old results. After a rename, the next call under the new name is a hit that returns results computed for the old name (`StaleHitAfterThrow`).
- `getMissingLinkElement` has no `finally`. A lookup that throws leaves the listener deregistered.
- The range end is Java's `String.length()`, counted in UTF-16 code units (`Utf16Length`).

The values of the GitHub keywords and of the wiki suffix (`wiki`, `issues`, `pulls`, `pulse`, `graphs`, `.wiki`) are declared in `FilePathInfo`, which is not part of this model. The model takes them from the plugin's link forms (`../../wiki`, `../../issues`, …) and from GitHub's `.wiki` repository naming.

## Model

| member | source | states |
|---|---|---|
| `FileReferences.ResolveLinkRefWith` | src/main/java/com/vladsch/idea/multimarkdown/util/FileReference.java:175-180 | The result is `None` exactly when the path resolution is `null`. Otherwise it is a new reference to the resolved path, bound to the receiver's project. |
| `FileReferences.ResolveLinkRefConverting` | src/main/java/com/vladsch/idea/multimarkdown/util/FileReference.java:78-82 | `resolveLinkRef(x, c)` is resolution with `(convert = c, withAnchor = false)` and no extra rules. |
| `FileReferences.ResolveLinkRefWithAnchorConverting` | src/main/java/com/vladsch/idea/multimarkdown/util/FileReference.java:83-87 | `resolveLinkRefWithAnchor(x, c)` is resolution with `(c, true)`. |
| `FileReferences.ResolveLinkRef` | src/main/java/com/vladsch/idea/multimarkdown/util/FileReference.java:88-92 | The one-argument form is resolution with `(false, false)`. |
| `FileReferences.ResolveLinkRefWithAnchor` | src/main/java/com/vladsch/idea/multimarkdown/util/FileReference.java:94-98 | The one-argument anchored form is resolution with `(false, true)`. |
| `FileReferences.ResolveLinkRefToWikiPage` | src/main/java/com/vladsch/idea/multimarkdown/util/FileReference.java:100-104 | The to-wiki-page form is resolution with `(true, false)`. |
| `FileReferences.ResolveLinkRefWithAnchorToWikiPage` | src/main/java/com/vladsch/idea/multimarkdown/util/FileReference.java:106-110 | The anchored to-wiki-page form is resolution with `(true, true)`. |
| `FileReferences.ResolveExternalLinkRefWith` | src/main/java/com/vladsch/idea/multimarkdown/util/FileReference.java:182-186 | External resolution is ordinary wrapped resolution with `convert = true`. Its rule chain is `appendResolvers(callerRules, built-in rules of this project)`. |
| `FileReferences.ResolveExternalLinkRefAnchored` | src/main/java/com/vladsch/idea/multimarkdown/util/FileReference.java:188-191 | The public two-argument form passes a single `null` resolver as the caller's rules. |
| `FileReferences.ResolveExternalLinkRef` | src/main/java/com/vladsch/idea/multimarkdown/util/FileReference.java:193-196 | The one-argument form is the two-argument form with `withAnchor = false`. |
| `FileReferences.WithExt` | src/main/java/com/vladsch/idea/multimarkdown/util/FileReference.java:198-202 | The result keeps the project and carries the superclass's `withExt` path. |
| `FileReferences.BuiltInRules` | src/main/java/com/vladsch/idea/multimarkdown/util/FileReference.java:169-184 | There are five built-in rules, each a GitHub rule owned by the reference's project. |
| `FileReferences.BuiltInRulesOrder` | src/main/java/com/vladsch/idea/multimarkdown/util/FileReference.java:169-184 | There are five built-in rules, all owned by the reference's project. In order they are issues, wiki, pulls, pulse, graphs. Only the second is the wiki kind. |
| `FileReferences.EntryPointsKeepProject` | src/main/java/com/vladsch/idea/multimarkdown/util/FileReference.java:78-196 | Every public resolution entry point that returns a reference returns one bound to the receiver's project. |
| `FileReferences.IsMatched` | src/main/java/com/vladsch/idea/multimarkdown/util/FileReference.java:117-120 | A GitHub rule matches only with a bound project and from a path that is not a wiki home. Given both, it matches iff the generic suffix match of `("..", "..", lastPart)` holds. The wiki kind at lines 145-148 has the same guard. |
| `FileReferences.RepoKey` | src/main/java/com/vladsch/idea/multimarkdown/util/FileReference.java:127-156 | The issues/pulls/pulse/graphs rules look up the current path's full path. The wiki rule looks up the current path extended by its file name plus `.wiki`. |
| `FileReferences.RulesNeedProjectAndNonWikiHome` | src/main/java/com/vladsch/idea/multimarkdown/util/FileReference.java:112-148 | No built-in rule matches when there is no project or the current path is a wiki home, whatever the link parts are. |
| `FileReferences.ComputePath` | src/main/java/com/vladsch/idea/multimarkdown/util/FileReference.java:122-166 | With no repository, or a URL call that throws, the result is the input path. Otherwise the issues/pulls/pulse/graphs rule gives the base URL with its keyword appended, looked up by the current path. The wiki rule gives `repoUrlFor("/")`, looked up by the path extended with the file name plus the wiki suffix. |
| `FileReferences.ComputePathIsTotal` | src/main/java/com/vladsch/idea/multimarkdown/util/FileReference.java:122-166 | `computePath` never propagates a failure of the URL calls. Its result is the input path or a path built from a returned URL. |
| `FileReferences.CompareTo` | src/main/java/com/vladsch/idea/multimarkdown/util/FileReference.java:261-264 | The result is `-1` against a reference bound to a different project. Otherwise it is the superclass ordering. |
| `FileReferences.CrossProjectOrderBothLess` | src/main/java/com/vladsch/idea/multimarkdown/util/FileReference.java:262-264 | For two references in different projects, each compares as less than the other. |
| `FileReferences.CanRenameFileTo` | src/main/java/com/vladsch/idea/multimarkdown/util/FileReference.java:280-315 | False without a project. True when the names are equivalent (a case change). Otherwise true iff the file's parent exists and has no child of the new name. |
| `FileReferences.CanCreateFile` | src/main/java/com/vladsch/idea/multimarkdown/util/FileReference.java:322-357 | True iff there is a project, the directory exists and it has no child of that name. |
| `FileReferences.CanCreateOwnFile` | src/main/java/com/vladsch/idea/multimarkdown/util/FileReference.java:317-320 | `canCreateFile()` is `canCreateFile` applied to the reference's own file name. |
| `FileReferences.RenameIsCreateOrCaseChange` | src/main/java/com/vladsch/idea/multimarkdown/util/FileReference.java:280-357 | When the file's parent is the directory at its path, rename is allowed iff creation is allowed or the rename is a case change under a bound project. |
| `ResolveMemo.Key` | src/main/java/com/vladsch/idea/multimarkdown/psi/impl/MultiMarkdownReference.java:105-106 | The stored key is the current name, or `""` when the name is `null`. |
| `ResolveMemo.IsHit` | src/main/java/com/vladsch/idea/multimarkdown/psi/impl/MultiMarkdownReference.java:104 | A call hits iff results and a name are cached and the current name is non-null and equal to the cached name. |
| `ResolveMemo.NotificationMatches` | src/main/java/com/vladsch/idea/multimarkdown/psi/impl/MultiMarkdownReference.java:53 | A notification matches iff a name is cached and the notification is `null` or equal to that name. |
| `ResolveMemo.AfterResolve` | src/main/java/com/vladsch/idea/multimarkdown/psi/impl/MultiMarkdownReference.java:104-109 | A hit leaves the memo unchanged. A miss whose strategy returns stores the fresh results under the key, and both fields stay set together. A miss whose strategy throws stores the key beside the old results. |
| `ResolveMemo.ResolvedValue` | src/main/java/com/vladsch/idea/multimarkdown/psi/impl/MultiMarkdownReference.java:104-110 | A hit returns the cached results. A miss returns the strategy's fresh results, or propagates its exception. |
| `ResolveMemo.AfterNotify` | src/main/java/com/vladsch/idea/multimarkdown/psi/impl/MultiMarkdownReference.java:51-54 | The memo is cleared iff a name is cached and the notification is the wildcard or that name. Otherwise nothing changes. |
| `ResolveMemo.RunKeepsWellFormed` | src/main/java/com/vladsch/idea/multimarkdown/psi/impl/MultiMarkdownReference.java:51-108 | On every trace of calls whose strategy never throws, the two memo fields are set or cleared together. |
| `ResolveMemo.ThrowLeavesKeyWithoutResults` | src/main/java/com/vladsch/idea/multimarkdown/psi/impl/MultiMarkdownReference.java:104-108 | From an empty memo, a strategy that throws leaves the key set and the results `null`, and the next call under that name misses. |
| `ResolveMemo.StaleHitAfterThrow` | src/main/java/com/vladsch/idea/multimarkdown/psi/impl/MultiMarkdownReference.java:104-110 | After a rename, a strategy that throws leaves the old results under the new name. The next call under the new name hits and returns them. |
| `ResolveMemo.RecomputedMemoHits` | src/main/java/com/vladsch/idea/multimarkdown/psi/impl/MultiMarkdownReference.java:102-111 | Two consecutive `multiResolve` calls under one non-null name: the second hits and returns what the first returned. |
| `ResolveMemo.NullNameAlwaysRecomputes` | src/main/java/com/vladsch/idea/multimarkdown/psi/impl/MultiMarkdownReference.java:104-106 | With a `null` name every call misses. The stored key is `""` and never matches `null`. |
| `ResolveMemo.NotificationInvalidatesOnlyMatchingName` | src/main/java/com/vladsch/idea/multimarkdown/psi/impl/MultiMarkdownReference.java:51-54 | A notification for the cached name, or the wildcard, forces the next call to recompute. A notification for another name leaves the memo alone. |
| `ResolveMemo.InvalidateIdempotent` | src/main/java/com/vladsch/idea/multimarkdown/psi/impl/MultiMarkdownReference.java:59-66 | Invalidating twice has the same effect on any continuation as invalidating once. |
| `ResolveMemo.UnrelatedEventsKeepMemo` | src/main/java/com/vladsch/idea/multimarkdown/psi/impl/MultiMarkdownReference.java:51-111 | From a hit for a name, any trace of same-name resolves and notifications about other names keeps the memo. Every result is the cached one, and the strategy never runs. |
| `ResolveMemo.AtMostOneRecomputationPerName` | src/main/java/com/vladsch/idea/multimarkdown/psi/impl/MultiMarkdownReference.java:102-111 | Any number of resolves under one non-null name, with a strategy that returns, run the strategy at most once, and all return the same results. |
| `MultiMarkdownReferences.SingleElement` | src/main/java/com/vladsch/idea/multimarkdown/psi/impl/MultiMarkdownReference.java:128-131 | The result is the element of the single result when there is exactly one result, and `null` otherwise. |
| `MultiMarkdownReferences.MultiMarkdownReference.constructor` | src/main/java/com/vladsch/idea/multimarkdown/psi/impl/MultiMarkdownReference.java:45-57 | A new reference has an empty memo, the given range, no strategy runs and no registrations. |
| `MultiMarkdownReferences.MultiMarkdownReference.ReferencesChanged` | src/main/java/com/vladsch/idea/multimarkdown/psi/impl/MultiMarkdownReference.java:51-54 | The listener clears both fields iff the notification matches. Otherwise the fields are unchanged. The new memo is `AfterNotify` of the old one. |
| `MultiMarkdownReferences.MultiMarkdownReference.InvalidateResolveResults` | src/main/java/com/vladsch/idea/multimarkdown/psi/impl/MultiMarkdownReference.java:59-66 | Both fields are `null` afterwards, whatever they were before. |
| `MultiMarkdownReferences.MultiMarkdownReference.RemoveReferenceChangeListener` | src/main/java/com/vladsch/idea/multimarkdown/psi/impl/MultiMarkdownReference.java:68-75 | Deregisters once when the element has a parent and a project component, and otherwise does nothing. |
| `MultiMarkdownReferences.MultiMarkdownReference.AddReferenceChangeListener` | src/main/java/com/vladsch/idea/multimarkdown/psi/impl/MultiMarkdownReference.java:77-84 | Registers once under the same conditions. |
| `MultiMarkdownReferences.MultiMarkdownReference.GetMissingLinkElement` | src/main/java/com/vladsch/idea/multimarkdown/psi/impl/MultiMarkdownReference.java:86-98 | The result is the component's missing-link lookup, or the reference's own element when there is no parent or no component. The net registration count is unchanged when the lookup returns. It drops by one when the lookup throws. |
| `MultiMarkdownReferences.MultiMarkdownReference.MultiResolve` | src/main/java/com/vladsch/idea/multimarkdown/psi/impl/MultiMarkdownReference.java:100-112 | A hit returns the memo without running the strategy. A miss sets the name to the key and the range to `[0, Java length of key)`, then runs the strategy once. Results that are returned replace the memo. A thrown exception propagates and leaves the old results. After a returning call, the memo hits iff the name is non-null. |
| `MultiMarkdownReferences.MultiMarkdownReference.Resolve` | src/main/java/com/vladsch/idea/multimarkdown/psi/impl/MultiMarkdownReference.java:126-131 | The result is `multiResolve(false)` collapsed to a single element, or its exception, with the same memo transition and strategy count. |
| `MultiMarkdownReferences.Utf16Length` | src/main/java/com/vladsch/idea/multimarkdown/psi/impl/MultiMarkdownReference.java:107 | Java's `length()` of a name: between its character count and twice that, and equal to the character count when every character is in the Basic Multilingual Plane. |
| `MultiMarkdownReferences.Utf16LengthOfEmoji` | src/main/java/com/vladsch/idea/multimarkdown/psi/impl/MultiMarkdownReference.java:107 | A name of one supplementary character has one Dafny character and Java length 2. |
| `MultiMarkdownReferences.MultiMarkdownReference.BindToElement` | src/main/java/com/vladsch/idea/multimarkdown/psi/impl/MultiMarkdownReference.java:114-124 | The call renames the own element to the target's name with the file-moved reason iff the target has the same class and a non-null name. Otherwise it is `IncorrectOperationException`. |

## Left out

- `FilePathInfo`'s own logic is not part of this model and stays uninterpreted: segment and `..` handling, anchor splitting, suffix matching, the rule dispatch with first match, `appendResolvers`, ordering and equivalence.
- VFS and PSI lookups are foreign calls: `getVirtualFile*`, `getVirtualParent`, `getPsiFile*`, `getMultiMarkdownFile*` and the static `projectFileResolver` hook. They appear only as the `Vfs` lookups.
- The `FileReference` constructors and `getProject` are construction and field access of the `FileReference` datatype.
- `toString` and `innerString` are text for logging only. Logging is left out too.
- The write-permission probe left commented out in `canRenameFileTo` and `canCreateFile` is dead code.
- FileReferences.ComputePath: it requires a bound project, which mirrors the Java `assert project != null`. Only the URL calls inside the `try` can fail in the model. `getProjectComponent(project)` returning `null`, an exception from `getGithubRepo`, and an exception from `currentPath.append` at line 155 all happen outside the `try` and would propagate in Java. The model does not represent them: the lookup oracle and `append` are total.
- ResolveMemo.RunKeepsWellFormed: it holds only for traces whose strategy never throws. `ThrowLeavesKeyWithoutResults` shows that a throw breaks it.
- ResolveMemo.AtMostOneRecomputationPerName: it holds only for a strategy that returns. A strategy that throws from an empty memo leaves it missing, so the next call runs the strategy again.
- The `synchronized` blocks exist for concurrency. The cache is modelled sequentially.
- The project component's listener registry is not part of this model. Registrations are a ghost count that assumes add and remove are inverse.
- `getVariants` is an empty stub.
- MultiMarkdownReferences.MultiMarkdownReference.MultiResolve: the strategy is a pure function of `incompleteCode`, so it cannot re-enter the reference. In Java, `getMultiResolveResults` runs inside a re-entrant `synchronized (this)` at line 108. A subclass strategy could call `getMissingLinkElement`, `referencesChanged` or `invalidateResolveResults` there. If it did, a throwing missing-link lookup would leave the listener deregistered (count one lower), and a matching notification would clear both fields after line 105, so line 108 would store results beside a `null` name and the next call would recompute. The model does not represent these interleavings. Its `MultiResolve`, `RunKeepsWellFormed` and `AtMostOneRecomputationPerName` hold for a strategy that does not re-enter.
- MultiMarkdownReferences.MultiMarkdownReference.MultiResolve: a hit returns a value equal to the cached array. Java's identity of the returned array object is not modelled.
- `setName`, the rename performed for `bindToElement`, belongs to the document tree. The model returns the rename request instead of the element `setName` returns.
- The Kotlin link-resolver test depends on fixture data that is not part of this model.
