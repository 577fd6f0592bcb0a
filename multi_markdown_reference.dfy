/** A model of `MultiMarkdownReference`: a reference from a named Markdown
    element that memoizes its poly-variant resolution, keyed by the element's
    name, and drops the memo when a matching change notification arrives.

    The element's current name, the concrete resolution strategy
    (`getMultiResolveResults`) and the project component are parameters of the
    methods that use them; the memo's transitions are those of `ResolveMemo`. */
module MultiMarkdownReferences {
  import opened Wrappers
  import opened ResolveMemo

  /** `TextRange(start, end)` within the element. */
  datatype TextRange = TextRange(start: int, end: int)

  /** A PSI element: its identity and its Java class. */
  datatype NamedElement = NamedElement(id: ElementId, kind: string)

  datatype RenameReason = ReasonFileMoved

  /** The `setName(name, reason)` call `bindToElement` makes on its own element. */
  datatype Rename = Rename(target: NamedElement, newName: string, reason: RenameReason)

  /** `IncorrectOperationException`. */
  datatype RebindError = IncorrectOperation

  /** `getMultiResolveResults(incompleteCode)` as it would compute now, or the
      exception it would throw. */
  type Strategy = bool -> Computed

  /** The project component's `getMissingLinkElement(element, namespace, name)`,
      or the exception it would throw. */
  type MissingLinkLookup = (NamedElement, string, string) -> Result<NamedElement, Exception>

  /** Java's `String.length()`: the number of UTF-16 code units, two for each
      character outside the Basic Multilingual Plane. */
  function Utf16Length(s: string): (n: nat)
    ensures |s| <= n <= 2 * |s|
    ensures (forall i :: 0 <= i < |s| ==> s[i] as int < 0x1_0000) ==> n == |s|
  {
    if s == [] then 0
    else
      assert forall i :: 0 <= i < |s| - 1 ==> s[1..][i] == s[i + 1];
      (if s[0] as int < 0x1_0000 then 1 else 2) + Utf16Length(s[1..])
  }

  /** A name of one supplementary character has Java length 2. */
  lemma Utf16LengthOfEmoji()
    ensures |"\U{1F600}"| == 1 && Utf16Length("\U{1F600}") == 2
  {
  }

  /** `resolve`: the element of the single result, or `null` unless there is
      exactly one result. */
  function SingleElement(results: Results): (e: Option<ElementId>)
    ensures |results| == 1 ==> e == results[0].element
    ensures |results| != 1 ==> e.None?
  {
    if |results| == 1 then results[0].element else None
  }

  class MultiMarkdownReference {
    const element: NamedElement
    const missingElementNamespace: string
    var resolveResults: Option<Results>
    var resolveResultsName: Option<string>
    var rangeInElement: TextRange
    /** How many times the resolution strategy has run. */
    ghost var strategyCalls: nat
    /** Net registrations of this reference's change listener. */
    ghost var subscriptions: int

    /** The memo fields as a `ResolveMemo.Memo`. */
    function CurrentMemo(): Memo
      reads this
    {
      Memo(resolveResults, resolveResultsName)
    }

    /** A cached name fixes the range. (The two memo fields are not always set
        together: a strategy that throws leaves the new name beside the old
        results; see `ResolveMemo.ThrowLeavesKeyWithoutResults`.) */
    ghost predicate Valid()
      reads this
    {
      resolveResultsName.Some? ==> rangeInElement == TextRange(0, Utf16Length(resolveResultsName.value))
    }

    constructor (element: NamedElement, missingElementNamespace: string, textRange: TextRange)
      ensures Valid()
      ensures this.element == element && this.missingElementNamespace == missingElementNamespace
      ensures CurrentMemo() == Empty && rangeInElement == textRange
      ensures strategyCalls == 0 && subscriptions == 0
    {
      this.element := element;
      this.missingElementNamespace := missingElementNamespace;
      resolveResults := None;
      resolveResultsName := None;
      rangeInElement := textRange;
      strategyCalls := 0;
      subscriptions := 0;
    }

    /** The change listener's `referencesChanged(name)`. */
    method ReferencesChanged(name: Option<string>)
      requires Valid()
      modifies this`resolveResults, this`resolveResultsName
      ensures Valid()
      ensures CurrentMemo() == AfterNotify(old(CurrentMemo()), name)
      ensures NotificationMatches(old(CurrentMemo()), name) ==> resolveResults.None? && resolveResultsName.None?
      ensures !NotificationMatches(old(CurrentMemo()), name) ==>
        resolveResults == old(resolveResults) && resolveResultsName == old(resolveResultsName)
    {
      if resolveResultsName.Some? && (name.None? || resolveResultsName.value == name.value) {
        InvalidateResolveResults();
      }
    }

    /** `invalidateResolveResults`: clears both memo fields. */
    method InvalidateResolveResults()
      requires Valid()
      modifies this`resolveResults, this`resolveResultsName
      ensures Valid()
      ensures resolveResults.None? && resolveResultsName.None?
      ensures CurrentMemo() == Empty
    {
      resolveResults := None;
      resolveResultsName := None;
    }

    /** `removeReferenceChangeListener`: deregisters when the element has a
        parent and its project has a component. */
    method RemoveReferenceChangeListener(hasParent: bool, hasComponent: bool)
      modifies this`subscriptions
      ensures subscriptions == old(subscriptions) - (if hasParent && hasComponent then 1 else 0)
    {
      if hasParent && hasComponent {
        subscriptions := subscriptions - 1;
      }
    }

    /** `addReferenceChangeListener`: registers under the same conditions. */
    method AddReferenceChangeListener(hasParent: bool, hasComponent: bool)
      modifies this`subscriptions
      ensures subscriptions == old(subscriptions) + (if hasParent && hasComponent then 1 else 0)
    {
      if hasParent && hasComponent {
        subscriptions := subscriptions + 1;
      }
    }

    /** `getMissingLinkElement(name)`: asks the project component for the
        element, deregistering the listener around the call; without a parent
        or a component it is the reference's own element. There is no
        `finally`: a lookup that throws leaves the listener deregistered. */
    method GetMissingLinkElement(name: string, hasParent: bool, component: Option<MissingLinkLookup>)
      returns (referenced: Result<NamedElement, Exception>)
      modifies this`subscriptions
      ensures hasParent && component.Some? ==>
        referenced == component.value(element, missingElementNamespace, name)
      ensures !(hasParent && component.Some?) ==> referenced == Success(element)
      ensures referenced.Success? ==> subscriptions == old(subscriptions)
      ensures referenced.Failure? ==> subscriptions == old(subscriptions) - 1
    {
      if hasParent && component.Some? {
        RemoveReferenceChangeListener(hasParent, true);
        referenced := component.value(element, missingElementNamespace, name);
        if referenced.Failure? {
          return;
        }
        AddReferenceChangeListener(hasParent, true);
        return;
      }
      referenced := Success(element);
    }

    /** `multiResolve(incompleteCode)` while the element is named `currentName`.
        A hit returns the memo and does not run the strategy. A miss first
        stores the current name (`""` for `null`) and sets the range to it,
        then runs the strategy once; results replace the memo, an exception
        propagates and leaves the old results. */
    method MultiResolve(currentName: Option<string>, strategy: Strategy, incompleteCode: bool)
      returns (outcome: Computed)
      requires Valid()
      modifies this`resolveResults, this`resolveResultsName, this`rangeInElement, this`strategyCalls
      ensures Valid()
      ensures CurrentMemo() == AfterResolve(old(CurrentMemo()), currentName, strategy(incompleteCode))
      ensures outcome == ResolvedValue(old(CurrentMemo()), currentName, strategy(incompleteCode))
      ensures IsHit(old(CurrentMemo()), currentName) ==>
        && outcome == Success(old(resolveResults).value)
        && strategyCalls == old(strategyCalls)
        && rangeInElement == old(rangeInElement)
      ensures !IsHit(old(CurrentMemo()), currentName) ==>
        && outcome == strategy(incompleteCode)
        && resolveResultsName == Some(Key(currentName))
        && rangeInElement == TextRange(0, Utf16Length(Key(currentName)))
        && resolveResults == (if outcome.Success? then Some(outcome.value) else old(resolveResults))
        && strategyCalls == old(strategyCalls) + 1
      ensures outcome.Success? ==> (IsHit(CurrentMemo(), currentName) <==> currentName.Some?)
    {
      if resolveResults.None? || resolveResultsName.None? || resolveResultsName != currentName {
        var name := if currentName.Some? then currentName.value else "";
        resolveResultsName := Some(name);
        rangeInElement := TextRange(0, Utf16Length(name));
        strategyCalls := strategyCalls + 1;
        outcome := strategy(incompleteCode);
        if outcome.Failure? {
          return;
        }
        resolveResults := Some(outcome.value);
      }
      outcome := Success(resolveResults.value);
    }

    /** `resolve()`: `multiResolve(false)` collapsed to a single element; an
        exception of the strategy propagates. */
    method Resolve(currentName: Option<string>, strategy: Strategy) returns (e: Result<Option<ElementId>, Exception>)
      requires Valid()
      modifies this`resolveResults, this`resolveResultsName, this`rangeInElement, this`strategyCalls
      ensures Valid()
      ensures CurrentMemo() == AfterResolve(old(CurrentMemo()), currentName, strategy(false))
      ensures var outcome := ResolvedValue(old(CurrentMemo()), currentName, strategy(false));
        e == if outcome.Success? then Success(SingleElement(outcome.value)) else Failure(outcome.error)
      ensures strategyCalls == old(strategyCalls) + (if IsHit(old(CurrentMemo()), currentName) then 0 else 1)
    {
      var outcome := MultiResolve(currentName, strategy, false);
      if outcome.Failure? {
        return Failure(outcome.error);
      }
      e := Success(SingleElement(outcome.value));
    }

    /** `bindToElement(target)`: renames this reference's element to the
        target's name, for the move; a target of another class or without a
        name is an `IncorrectOperationException`. */
    function BindToElement(target: NamedElement, targetName: Option<string>): (r: Result<Rename, RebindError>)
      ensures r.Success? <==> target.kind == element.kind && targetName.Some?
      ensures r.Success? ==> r.value == Rename(element, targetName.value, ReasonFileMoved)
    {
      if target.kind == element.kind && targetName.Some? then Success(Rename(element, targetName.value, ReasonFileMoved))
      else Failure(IncorrectOperation)
    }
  }
}
