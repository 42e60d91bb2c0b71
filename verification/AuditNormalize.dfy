/**
 Normalising raw audits: accessibility and DOM observations become checks and a
 sorted list of findings. The collation of texts is any total order; the wording
 of details and the folding of names (NFC, trimming, collapsed spaces, lower
 case) are whatever the environment supplies.
 */
module AuditNormalize {
  import opened Findings
  import opened Lists
  import opened Sorting
  import opened Texts
  import opened Wrappers

  const MAX_LANDMARKS := 100
  const MAX_CONTROLS := 1000
  const MAX_ISSUES_PER_KIND := 200
  const MAX_LOCATOR_CHARS := 500
  const MAX_DETAIL_CHARS := 1000

  // ------------------------------------------------------------ observations

  datatype LandmarkRole = Main | OtherLandmark(role: string)

  datatype ControlRole = MenuItem | MenuItemCheckbox | MenuItemRadio | OptionItem | OtherControl(role: string)

  datatype Landmark = Landmark(role: LandmarkRole, name: string, locator: string)

  datatype Dialog = Dialog(alert: bool, name: string, locator: string, modal: bool, containsFocus: bool)

  datatype Owner = Owner(name: string, locator: string)

  /** Only a listbox can have an owner, a combobox. */
  datatype PopupKind = Menu | Listbox(owner: Option<Owner>)

  datatype Popup = Popup(
    kind: PopupKind,
    name: string,
    locator: string,
    containsFocus: bool,
    mainHidden: bool,
    keyboardVerified: bool,
    members: seq<string>)

  datatype Control = Control(
    role: ControlRole,
    name: string,
    locator: string,
    disabled: bool,
    tabIndex: int,
    composite: bool,
    documentIndex: nat)

  datatype Observations = Observations(
    landmarks: seq<Landmark>,
    controls: seq<Control>,
    dialogs: seq<Dialog>,
    popups: seq<Popup>)

  datatype Phrase =
    | MainCount(count: nat)
    | UnnamedDialog(alert: bool)
    | UnnamedPopup(listbox: bool)
    | NeedsDistinctNames(role: LandmarkRole)
    | UsesSameName(role: LandmarkRole)
    | UnnamedControl(control: ControlRole)
    | HasTabIndex(control: ControlRole, tabIndex: int)
    | UsesTabIndex(control: ControlRole, tabIndex: int)
    | ScrollsPast(scrollWidth: int, clientWidth: int)

  datatype Environment = Environment(
    collate: (string, string) -> bool,
    fold: string -> string,
    say: Phrase -> string)

  // -------------------------------------------------------------- acceptance

  predicate BoundedText(s: string, max: nat, allowEmpty: bool) {
    |s| <= max && (allowEmpty || !Blank(s))
  }

  predicate IsRole(s: string) {
    && 1 <= |s| <= 64 && 'a' <= s[0] <= 'z'
    && forall i :: 0 <= i < |s| ==> 'a' <= s[i] <= 'z' || '0' <= s[i] <= '9' || s[i] == '-'
  }

  predicate Named(name: string, locator: string) {
    BoundedText(name, MAX_DETAIL_CHARS, true) && BoundedText(locator, MAX_LOCATOR_CHARS, false)
  }

  const MAIN_ROLE := "main"
  const MEMBER_ROLES := ["menuitem", "menuitemcheckbox", "menuitemradio", "option"]

  /** A role without a case of its own keeps its text, which is none of the cases' texts. */
  predicate ValidLandmark(l: Landmark) {
    Named(l.name, l.locator) && (l.role.OtherLandmark? ==> IsRole(l.role.role) && l.role.role != MAIN_ROLE)
  }

  predicate ValidDialog(d: Dialog) {
    Named(d.name, d.locator)
  }

  predicate ValidPopup(p: Popup) {
    && Named(p.name, p.locator)
    && (p.kind.Listbox? && p.kind.owner.Some? ==> Named(p.kind.owner.value.name, p.kind.owner.value.locator))
    && |p.members| <= MAX_CONTROLS
    && (forall i :: 0 <= i < |p.members| ==> BoundedText(p.members[i], MAX_LOCATOR_CHARS, false))
    && forall i, j :: 0 <= i < j < |p.members| ==> p.members[i] != p.members[j]
  }

  predicate ValidControl(c: Control) {
    && Named(c.name, c.locator) && (c.role.OtherControl? ==> IsRole(c.role.role) && c.role.role !in MEMBER_ROLES)
    && -1 <= c.tabIndex <= 32767
  }

  function HasIndex(index: nat): Control -> bool {
    (c: Control) => c.documentIndex == index
  }

  predicate UniqueIndexes(controls: seq<Control>) {
    forall c :: c in controls ==> |Filter(controls, HasIndex(c.documentIndex))| < 2
  }

  /** Exactly the observations that are normalised; all others raise an error. */
  predicate Acceptable(o: Observations) {
    && |o.dialogs| <= MAX_LANDMARKS && |o.popups| <= MAX_LANDMARKS && |o.landmarks| <= MAX_LANDMARKS
    && |o.controls| <= MAX_CONTROLS
    && (forall d :: d in o.dialogs ==> ValidDialog(d))
    && (forall p :: p in o.popups ==> ValidPopup(p))
    && (forall l :: l in o.landmarks ==> ValidLandmark(l))
    && (forall c :: c in o.controls ==> ValidControl(c))
    && UniqueIndexes(o.controls)
  }

  /** The loop over the document indexes, with the set of those seen. */
  method CheckIndexes(controls: seq<Control>) returns (unique: bool)
    ensures unique == UniqueIndexes(controls)
  {
    var indexes: set<nat> := {};
    for i := 0 to |controls|
      invariant forall j :: 0 <= j < i ==> controls[j].documentIndex in indexes
      invariant forall n :: n in indexes ==> exists j :: 0 <= j < i && controls[j].documentIndex == n
      invariant forall j, k :: 0 <= j < k < i ==> controls[j].documentIndex != controls[k].documentIndex
    {
      if controls[i].documentIndex in indexes {
        var j :| 0 <= j < i && controls[j].documentIndex == controls[i].documentIndex;
        FilterFindsBoth(controls, j, i, HasIndex(controls[i].documentIndex));
        assert controls[i] in controls;
        return false;
      }
      indexes := indexes + {controls[i].documentIndex};
    }
    forall c | c in controls
      ensures |Filter(controls, HasIndex(c.documentIndex))| < 2
    {
      FilterFindsOne(controls, HasIndex(c.documentIndex));
    }
    return true;
  }

  /** The checks before the audit, in their order. */
  method CheckObservations(o: Observations) returns (ok: bool)
    ensures ok == Acceptable(o)
  {
    hide UniqueIndexes;
    hide ValidDialog;
    hide ValidPopup;
    hide ValidLandmark;
    hide ValidControl;
    if |o.dialogs| > MAX_LANDMARKS {
      return false;
    }
    for i := 0 to |o.dialogs|
      invariant forall d :: d in o.dialogs[..i] ==> ValidDialog(d)
    {
      if !ValidDialog(o.dialogs[i]) {
        return false;
      }
    }
    if |o.popups| > MAX_LANDMARKS {
      return false;
    }
    for i := 0 to |o.popups|
      invariant forall p :: p in o.popups[..i] ==> ValidPopup(p)
    {
      if !ValidPopup(o.popups[i]) {
        return false;
      }
    }
    if |o.landmarks| > MAX_LANDMARKS || |o.controls| > MAX_CONTROLS {
      return false;
    }
    for i := 0 to |o.landmarks|
      invariant forall l :: l in o.landmarks[..i] ==> ValidLandmark(l)
    {
      if !ValidLandmark(o.landmarks[i]) {
        return false;
      }
    }
    for i := 0 to |o.controls|
      invariant forall c :: c in o.controls[..i] ==> ValidControl(c)
    {
      if !ValidControl(o.controls[i]) {
        return false;
      }
    }
    ok := CheckIndexes(o.controls);
  }

  // ------------------------------------------------------ findings per item

  const MISSING_MAIN := "missing-main-landmark"
  const MULTIPLE_MAIN := "multiple-main-landmarks"
  const UNNAMED_DUPLICATE := "unnamed-duplicate-landmark"
  const DUPLICATE_NAME := "duplicate-landmark-name"
  const MISSING_DIALOG_NAME := "missing-dialog-name"
  const MISSING_POPUP_NAME := "missing-popup-name"
  const MISSING_NAME := "missing-accessible-name"
  const NOT_REACHABLE := "not-keyboard-reachable"
  const POSITIVE_TAB := "positive-tab-index"

  function HasLocator(locator: string): Control -> bool {
    (c: Control) => c.locator == locator
  }

  predicate RoleFits(role: ControlRole, kind: PopupKind) {
    match kind
    case Menu => role.MenuItem? || role.MenuItemCheckbox? || role.MenuItemRadio?
    case Listbox(_) => role.OptionItem?
  }

  /** The member is one operable control of the right role. */
  predicate OperableMember(locator: string, kind: PopupKind, controls: seq<Control>) {
    && |Filter(controls, HasLocator(locator))| == 1
    && forall c :: c in controls && c.locator == locator ==>
         RoleFits(c.role, kind) && !c.disabled && (c.tabIndex >= 0 || c.composite)
  }

  predicate OwnerNamed(kind: PopupKind) {
    kind.Listbox? && kind.owner.Some? && !Blank(kind.owner.value.name)
  }

  /** A focused popup that is the whole operable scope. */
  predicate ScopesFocus(p: Popup, controls: seq<Control>) {
    && (if p.kind.Listbox? then OwnerNamed(p.kind) else !Blank(p.name))
    && p.containsFocus && p.mainHidden && p.keyboardVerified && p.members != []
    && (forall locator :: locator in p.members ==> OperableMember(locator, p.kind, controls))
    && forall c :: c in controls ==> c.disabled || c.locator in p.members
  }

  function ScopeTest(controls: seq<Control>): Popup -> bool {
    (p: Popup) => ScopesFocus(p, controls)
  }

  function ModalTest(): Dialog -> bool {
    (d: Dialog) => d.modal && d.containsFocus && !Blank(d.name)
  }

  function RoleTest(role: LandmarkRole): Landmark -> bool {
    (l: Landmark) => l.role == role
  }

  function NameTest(name: string, fold: string -> string): Landmark -> bool {
    (l: Landmark) => fold(l.name) == name
  }

  /** One main landmark, or none while one modal or one popup scope holds the focus. */
  predicate MainFits(mains: nat, modals: nat, scopes: nat) {
    mains == 1 || (mains == 0 && (modals == 1 || (scopes == 1 && modals == 0)))
  }

  function MainFinding(mains: nat, modals: nat, scopes: nat, env: Environment): seq<Finding> {
    if MainFits(mains, modals, scopes) then []
    else [Finding(Landmarks, if mains == 0 then MISSING_MAIN else MULTIPLE_MAIN, "document", env.say(MainCount(mains)))]
  }

  function DialogFinder(env: Environment): Dialog -> seq<Finding> {
    (d: Dialog) => if Blank(d.name) then
           [Finding(Names, MISSING_DIALOG_NAME, d.locator, env.say(UnnamedDialog(d.alert)))] else []
  }

  predicate PopupUnnamed(p: Popup) {
    Blank(p.name) && (p.kind.Listbox? ==> !OwnerNamed(p.kind) || !p.keyboardVerified)
  }

  function PopupFinder(env: Environment): Popup -> seq<Finding> {
    (p: Popup) => if PopupUnnamed(p) then
           [Finding(Names, MISSING_POPUP_NAME, p.locator, env.say(UnnamedPopup(p.kind.Listbox?)))]
         else []
  }

  /** What a landmark contributes among the landmarks of its role. */
  function RepeatedFinding(l: Landmark, ofRole: seq<Landmark>, env: Environment): seq<Finding> {
    if env.fold(l.name) == "" then
      [Finding(Landmarks, UNNAMED_DUPLICATE, l.locator, env.say(NeedsDistinctNames(l.role)))]
    else if |Filter(ofRole, NameTest(env.fold(l.name), env.fold))| > 1 then
      [Finding(Landmarks, DUPLICATE_NAME, l.locator, env.say(UsesSameName(l.role)))]
    else []
  }

  function LandmarkFinding(l: Landmark, all: seq<Landmark>, env: Environment): seq<Finding> {
    var ofRole := Filter(all, RoleTest(l.role));
    if |ofRole| < 2 then [] else RepeatedFinding(l, ofRole, env)
  }

  function LandmarkFinder(all: seq<Landmark>, env: Environment): Landmark -> seq<Finding> {
    (l: Landmark) => LandmarkFinding(l, all, env)
  }

  function NameFinder(env: Environment): Control -> seq<Finding> {
    (c: Control) => if Blank(c.name) then
           [Finding(Names, MISSING_NAME, c.locator, env.say(UnnamedControl(c.role)))] else []
  }

  function FocusFinder(env: Environment): Control -> seq<Finding> {
    (c: Control) => if c.disabled || c.composite || c.tabIndex == 0 then []
         else if c.tabIndex < 0 then
           [Finding(FocusOrder, NOT_REACHABLE, c.locator, env.say(HasTabIndex(c.role, c.tabIndex)))]
         else
           [Finding(FocusOrder, POSITIVE_TAB, c.locator, env.say(UsesTabIndex(c.role, c.tabIndex)))]
  }

  function MainPart(o: Observations, env: Environment): seq<Finding> {
    MainFinding(|Filter(o.landmarks, RoleTest(Main))|, |Filter(o.dialogs, ModalTest())|,
                |Filter(o.popups, ScopeTest(o.controls))|, env)
  }

  /** All findings of the observations, item by item. */
  function AccessibilityFindings(o: Observations, env: Environment): seq<Finding> {
    MainPart(o, env)
    + (FlatMap(o.dialogs, DialogFinder(env))
       + (FlatMap(o.popups, PopupFinder(env))
          + (FlatMap(o.landmarks, LandmarkFinder(o.landmarks, env))
             + (FlatMap(o.controls, NameFinder(env))
                + FlatMap(o.controls, FocusFinder(env))))))
  }

  predicate Passes(findings: seq<Finding>, check: Check) {
    forall f :: f in findings ==> f.check != check
  }

  // ---------------------------------------------------- codes tell the check

  function CheckOf(code: string): Check {
    if code == MISSING_MAIN || code == MULTIPLE_MAIN || code == UNNAMED_DUPLICATE || code == DUPLICATE_NAME then
      Landmarks
    else if code == NOT_REACHABLE || code == POSITIVE_TAB then FocusOrder
    else Names
  }

  predicate Coded(findings: seq<Finding>) {
    forall f :: f in findings ==> f.check == CheckOf(f.code)
  }

  lemma CodesDiffer()
    ensures CheckOf(MISSING_DIALOG_NAME) == CheckOf(MISSING_POPUP_NAME) == CheckOf(MISSING_NAME) == Names
    ensures CheckOf(NOT_REACHABLE) == CheckOf(POSITIVE_TAB) == FocusOrder
  {
    assert MISSING_NAME[0] != DUPLICATE_NAME[0] && MISSING_NAME[1] != MULTIPLE_MAIN[1];
    assert MISSING_POPUP_NAME[0] != POSITIVE_TAB[0];
  }

  lemma LandmarkCodes()
    ensures CheckOf(MISSING_MAIN) == CheckOf(MULTIPLE_MAIN) == Landmarks
    ensures CheckOf(UNNAMED_DUPLICATE) == CheckOf(DUPLICATE_NAME) == Landmarks
  {
  }

  /** Every finding an item adds is of one check, which its code tells. */
  predicate OfCheck(findings: seq<Finding>, check: Check) {
    forall f :: f in findings ==> f.check == check == CheckOf(f.code)
  }

  lemma FlatMapOfCheck<T>(s: seq<T>, finder: T -> seq<Finding>, check: Check)
    requires forall i :: 0 <= i < |s| ==> OfCheck(finder(s[i]), check)
    ensures OfCheck(FlatMap(s, finder), check)
  {
    hide CheckOf;
    forall f | f in FlatMap(s, finder)
      ensures f.check == check == CheckOf(f.code)
    {
      FlatMapHas(s, finder, f);
    }
  }

  lemma LandmarkParts(o: Observations, env: Environment)
    ensures OfCheck(MainPart(o, env), Landmarks)
    ensures OfCheck(FlatMap(o.landmarks, LandmarkFinder(o.landmarks, env)), Landmarks)
  {
    LandmarkCodes();
    hide CheckOf;
    MainIsOfCheck(|Filter(o.landmarks, RoleTest(Main))|, |Filter(o.dialogs, ModalTest())|,
                  |Filter(o.popups, ScopeTest(o.controls))|, env);
    forall i | 0 <= i < |o.landmarks|
      ensures OfCheck(LandmarkFinder(o.landmarks, env)(o.landmarks[i]), Landmarks)
    {
      LandmarkIsOfCheck(o.landmarks[i], o.landmarks, env);
    }
    hide OfCheck;
    hide MainFinding;
    hide LandmarkFinding;
    FlatMapOfCheck(o.landmarks, LandmarkFinder(o.landmarks, env), Landmarks);
  }

  lemma MainIsOfCheck(mains: nat, modals: nat, scopes: nat, env: Environment)
    ensures OfCheck(MainFinding(mains, modals, scopes, env), Landmarks)
  {
    LandmarkCodes();
    hide CheckOf;
  }

  lemma LandmarkIsOfCheck(l: Landmark, all: seq<Landmark>, env: Environment)
    ensures OfCheck(LandmarkFinding(l, all, env), Landmarks)
  {
    LandmarkCodes();
    hide CheckOf;
    hide Filter;
  }

  lemma NameParts(o: Observations, env: Environment)
    ensures OfCheck(FlatMap(o.dialogs, DialogFinder(env)), Names)
    ensures OfCheck(FlatMap(o.popups, PopupFinder(env)), Names)
    ensures OfCheck(FlatMap(o.controls, NameFinder(env)), Names)
  {
    hide CheckOf;
    CodesDiffer();
    FlatMapOfCheck(o.dialogs, DialogFinder(env), Names);
    FlatMapOfCheck(o.popups, PopupFinder(env), Names);
    FlatMapOfCheck(o.controls, NameFinder(env), Names);
  }

  lemma FocusPart(o: Observations, env: Environment)
    ensures OfCheck(FlatMap(o.controls, FocusFinder(env)), FocusOrder)
  {
    hide CheckOf;
    CodesDiffer();
    FlatMapOfCheck(o.controls, FocusFinder(env), FocusOrder);
  }

  lemma AllCoded(o: Observations, env: Environment)
    ensures Coded(AccessibilityFindings(o, env))
  {
    hide CheckOf;
    LandmarkParts(o, env);
    NameParts(o, env);
    FocusPart(o, env);
  }

  // ------------------------------------------------------- order is forgotten

  /** The same observations, each list in any order. */
  predicate Shuffled(o: Observations, p: Observations) {
    && multiset(o.landmarks) == multiset(p.landmarks)
    && multiset(o.controls) == multiset(p.controls)
    && multiset(o.dialogs) == multiset(p.dialogs)
    && multiset(o.popups) == multiset(p.popups)
  }

  lemma SameLength<T>(a: seq<T>, b: seq<T>)
    requires multiset(a) == multiset(b)
    ensures |a| == |b|
  {
    assert |multiset(a)| == |a| && |multiset(b)| == |b|;
  }

  lemma UniqueIndexesPermutes(a: seq<Control>, b: seq<Control>)
    requires multiset(a) == multiset(b) && UniqueIndexes(a)
    ensures UniqueIndexes(b)
  {
    forall c | c in b
      ensures |Filter(b, HasIndex(c.documentIndex))| < 2
    {
      SamePermutation(a, b, c);
      FilterPermutes(a, b, HasIndex(c.documentIndex));
    }
  }

  lemma AcceptanceForgetsOrder(o: Observations, p: Observations)
    requires Shuffled(o, p)
    ensures Acceptable(o) ==> Acceptable(p)
  {
    if Acceptable(o) {
      SameLength(o.landmarks, p.landmarks);
      SameLength(o.controls, p.controls);
      SameLength(o.dialogs, p.dialogs);
      SameLength(o.popups, p.popups);
      forall x: Landmark { SamePermutation(o.landmarks, p.landmarks, x); }
      forall x: Control { SamePermutation(o.controls, p.controls, x); }
      forall x: Dialog { SamePermutation(o.dialogs, p.dialogs, x); }
      forall x: Popup { SamePermutation(o.popups, p.popups, x); }
      UniqueIndexesPermutes(o.controls, p.controls);
    }
  }

  lemma ScopeForgetsOrder(popup: Popup, a: seq<Control>, b: seq<Control>)
    requires multiset(a) == multiset(b)
    ensures ScopesFocus(popup, a) == ScopesFocus(popup, b)
  {
    forall c: Control { SamePermutation(a, b, c); }
    forall locator | locator in popup.members
      ensures OperableMember(locator, popup.kind, a) == OperableMember(locator, popup.kind, b)
    {
      FilterPermutes(a, b, HasLocator(locator));
    }
  }

  lemma MainForgetsOrder(o: Observations, p: Observations, env: Environment)
    requires Shuffled(o, p)
    ensures MainPart(o, env) == MainPart(p, env)
  {
    FilterPermutes(o.landmarks, p.landmarks, RoleTest(Main));
    FilterPermutes(o.dialogs, p.dialogs, ModalTest());
    FilterPermutes(o.popups, p.popups, ScopeTest(o.controls));
    forall i | 0 <= i < |p.popups|
      ensures ScopeTest(o.controls)(p.popups[i]) == ScopeTest(p.controls)(p.popups[i])
    {
      ScopeForgetsOrder(p.popups[i], o.controls, p.controls);
    }
    FilterSame(p.popups, ScopeTest(o.controls), ScopeTest(p.controls));
  }

  lemma LandmarkForgetsOrder(l: Landmark, a: seq<Landmark>, b: seq<Landmark>, env: Environment)
    requires multiset(a) == multiset(b)
    ensures LandmarkFinding(l, a, env) == LandmarkFinding(l, b, env)
  {
    FilterPermutes(a, b, RoleTest(l.role));
    FilterPermutes(Filter(a, RoleTest(l.role)), Filter(b, RoleTest(l.role)), NameTest(env.fold(l.name), env.fold));
  }

  lemma LandmarksForgetOrder(a: seq<Landmark>, b: seq<Landmark>, env: Environment)
    requires multiset(a) == multiset(b)
    ensures multiset(FlatMap(a, LandmarkFinder(a, env))) == multiset(FlatMap(b, LandmarkFinder(b, env)))
  {
    FlatMapPermutes(a, b, LandmarkFinder(a, env));
    forall i | 0 <= i < |b|
      ensures LandmarkFinder(a, env)(b[i]) == LandmarkFinder(b, env)(b[i])
    {
      LandmarkForgetsOrder(b[i], a, b, env);
    }
    FlatMapSame(b, LandmarkFinder(a, env), LandmarkFinder(b, env));
  }

  /** The findings, as a multiset, depend only on the multisets of observations. */
  lemma FindingsForgetOrder(o: Observations, p: Observations, env: Environment)
    requires Shuffled(o, p)
    ensures multiset(AccessibilityFindings(o, env)) == multiset(AccessibilityFindings(p, env))
  {
    MainForgetsOrder(o, p, env);
    FlatMapPermutes(o.dialogs, p.dialogs, DialogFinder(env));
    FlatMapPermutes(o.popups, p.popups, PopupFinder(env));
    LandmarksForgetOrder(o.landmarks, p.landmarks, env);
    FlatMapPermutes(o.controls, p.controls, NameFinder(env));
    FlatMapPermutes(o.controls, p.controls, FocusFinder(env));
  }

  lemma CodedTiesInOrder(findings: seq<Finding>)
    requires Coded(findings)
    ensures TiesInOrder(findings)
  {
    hide CheckOf;
    forall i, j | 0 <= i < j < |findings| && SameKey(findings[i], findings[j])
      ensures Rank(findings[i].check) <= Rank(findings[j].check)
    {
      assert findings[i] in findings && findings[j] in findings;
    }
  }

  /** The sorted findings, exactly: any list of the same findings sorts to them. */
  lemma SortedAccessibility(raw: seq<Finding>, o: Observations, env: Environment)
    requires TotalOrder(env.collate) && multiset(raw) == multiset(AccessibilityFindings(o, env))
    ensures Sort(raw, ByKey(env.collate)) == Sort(AccessibilityFindings(o, env), ByKey(env.collate))
  {
    hide CheckOf;
    hide AccessibilityFindings;
    AllCoded(o, env);
    forall f | f in raw
      ensures f.check == CheckOf(f.code)
    {
      SamePermutation(raw, AccessibilityFindings(o, env), f);
    }
    CodedTiesInOrder(raw);
    CodedTiesInOrder(AccessibilityFindings(o, env));
    SortedFindingsAgree(raw, AccessibilityFindings(o, env), env.collate);
  }

  // ------------------------------------------------------- what checks mean

  /** In every repeated role, names fold to non-empty and pairwise distinct texts. */
  predicate DistinctNames(landmarks: seq<Landmark>, fold: string -> string) {
    forall i, j :: 0 <= i < j < |landmarks| && landmarks[i].role == landmarks[j].role ==>
      fold(landmarks[i].name) != "" && fold(landmarks[j].name) != ""
      && fold(landmarks[i].name) != fold(landmarks[j].name)
  }

  /** Another landmark of the role exists, and one with the same folded name, exactly when the counts say so. */
  lemma CountsSeeOthers(all: seq<Landmark>, k: nat, p: Landmark -> bool)
    requires k < |all| && p(all[k])
    ensures |Filter(all, p)| >= 2 <==> exists j :: 0 <= j < |all| && j != k && p(all[j])
  {
    TwoPass(all, p);
    if |Filter(all, p)| >= 2 {
      var i, j :| 0 <= i < j < |all| && p(all[i]) && p(all[j]);
      assert i != k || j != k;
    }
    if j :| 0 <= j < |all| && j != k && p(all[j]) {
      var lo, hi := if j < k then j else k, if j < k then k else j;
      assert p(all[lo]) && p(all[hi]);
    }
  }

  function BothTest(role: LandmarkRole, name: string, fold: string -> string): Landmark -> bool {
    (l: Landmark) => l.role == role && fold(l.name) == name
  }

  lemma {:induction false} TwiceFiltered(all: seq<Landmark>, role: LandmarkRole, name: string, fold: string -> string)
    ensures |Filter(Filter(all, RoleTest(role)), NameTest(name, fold))| == |Filter(all, BothTest(role, name, fold))|
  {
    if all != [] {
      TwiceFiltered(all[..|all| - 1], role, name, fold);
      var ofRole := Filter(all, RoleTest(role));
      if RoleTest(role)(all[|all| - 1]) {
        assert ofRole[..|ofRole| - 1] == Filter(all[..|all| - 1], RoleTest(role));
      }
    }
  }

  /** A landmark adds no finding exactly when it shares neither emptiness nor its name with another of its role. */
  lemma LandmarkIsQuiet(all: seq<Landmark>, k: nat, env: Environment)
    requires k < |all|
    ensures LandmarkFinding(all[k], all, env) == [] <==>
            forall j :: 0 <= j < |all| && j != k && all[j].role == all[k].role ==>
              env.fold(all[k].name) != "" && env.fold(all[j].name) != env.fold(all[k].name)
  {
    var role, name := all[k].role, env.fold(all[k].name);
    CountsSeeOthers(all, k, RoleTest(role));
    CountsSeeOthers(all, k, BothTest(role, name, env.fold));
    TwiceFiltered(all, role, name, env.fold);
    if |Filter(all, BothTest(role, name, env.fold))| >= 2 {
      var j :| 0 <= j < |all| && j != k && BothTest(role, name, env.fold)(all[j]);
      assert RoleTest(role)(all[j]);
    }
    forall j | 0 <= j < |all| && j != k && all[j].role == role
      ensures RoleTest(role)(all[j]) && (env.fold(all[j].name) == name ==> BothTest(role, name, env.fold)(all[j]))
    {
    }
  }

  lemma PassesIfEmpty(findings: seq<Finding>, check: Check)
    requires OfCheck(findings, check)
    ensures Passes(findings, check) <==> findings == []
    ensures forall other :: other != check ==> Passes(findings, other)
  {
    hide CheckOf;
    if findings != [] {
      assert findings[0] in findings;
    }
  }

  lemma PassesParts(a: seq<Finding>, b: seq<Finding>, check: Check)
    ensures Passes(a + b, check) <==> Passes(a, check) && Passes(b, check)
  {
    assert forall f :: f in a + b <==> f in a || f in b;
  }

  /** Each check passes exactly when its own parts are empty. */
  lemma ChecksAreParts(o: Observations, env: Environment)
    ensures var findings := AccessibilityFindings(o, env);
            && (Passes(findings, Landmarks) <==>
                  MainPart(o, env) == [] && FlatMap(o.landmarks, LandmarkFinder(o.landmarks, env)) == [])
            && (Passes(findings, Names) <==>
                  && FlatMap(o.dialogs, DialogFinder(env)) == [] && FlatMap(o.popups, PopupFinder(env)) == []
                  && FlatMap(o.controls, NameFinder(env)) == [])
            && (Passes(findings, FocusOrder) <==> FlatMap(o.controls, FocusFinder(env)) == [])
  {
    hide Passes;
    hide OfCheck;
    hide MainPart;
    hide CheckOf;
    LandmarkParts(o, env);
    NameParts(o, env);
    FocusPart(o, env);
    var a, b, c := MainPart(o, env), FlatMap(o.dialogs, DialogFinder(env)), FlatMap(o.popups, PopupFinder(env));
    var d := FlatMap(o.landmarks, LandmarkFinder(o.landmarks, env));
    var e, f := FlatMap(o.controls, NameFinder(env)), FlatMap(o.controls, FocusFinder(env));
    PassesIfEmpty(a, Landmarks);
    PassesIfEmpty(b, Names);
    PassesIfEmpty(c, Names);
    PassesIfEmpty(d, Landmarks);
    PassesIfEmpty(e, Names);
    PassesIfEmpty(f, FocusOrder);
    PartsPass(a, b, c, d, e, f, Landmarks);
    PartsPass(a, b, c, d, e, f, Names);
    PartsPass(a, b, c, d, e, f, FocusOrder);
  }

  lemma PartsPass(a: seq<Finding>, b: seq<Finding>, c: seq<Finding>, d: seq<Finding>, e: seq<Finding>, f: seq<Finding>,
                  check: Check)
    ensures Passes(a + (b + (c + (d + (e + f)))), check) <==>
            && Passes(a, check) && Passes(b, check) && Passes(c, check)
            && Passes(d, check) && Passes(e, check) && Passes(f, check)
  {
    hide Passes;
    PassesParts(a, b + (c + (d + (e + f))), check);
    PassesParts(b, c + (d + (e + f)), check);
    PassesParts(c, d + (e + f), check);
    PassesParts(d, e + f, check);
    PassesParts(e, f, check);
  }

  function Count<T>(s: seq<T>, p: T -> bool): nat {
    |Filter(s, p)|
  }

  /**
   The landmark check passes exactly when there is one main landmark, or none
   while one modal or one popup scope holds the focus, and repeated roles have
   distinct names.
   */
  lemma LandmarkCheckMeans(o: Observations, env: Environment)
    ensures Passes(AccessibilityFindings(o, env), Landmarks) <==>
            && MainFits(Count(o.landmarks, RoleTest(Main)), Count(o.dialogs, ModalTest()),
                        Count(o.popups, ScopeTest(o.controls)))
            && DistinctNames(o.landmarks, env.fold)
  {
    hide AccessibilityFindings;
    hide ScopeTest;
    ChecksAreParts(o, env);
    FlatMapIsEmpty(o.landmarks, LandmarkFinder(o.landmarks, env));
    QuietLandmarks(o.landmarks, env);
  }

  lemma QuietLandmarks(all: seq<Landmark>, env: Environment)
    ensures DistinctNames(all, env.fold) <==> forall k :: 0 <= k < |all| ==> LandmarkFinder(all, env)(all[k]) == []
  {
    hide LandmarkFinding;
    forall k | 0 <= k < |all| {
      LandmarkIsQuiet(all, k, env);
    }
    if forall k :: 0 <= k < |all| ==> LandmarkFinder(all, env)(all[k]) == [] {
      forall i, j | 0 <= i < j < |all| && all[i].role == all[j].role
        ensures env.fold(all[i].name) != "" && env.fold(all[j].name) != ""
                && env.fold(all[i].name) != env.fold(all[j].name)
      {
        assert LandmarkFinder(all, env)(all[i]) == [] && LandmarkFinder(all, env)(all[j]) == [];
      }
    }
  }

  /** The names check passes exactly when every dialog, popup and control is named as required. */
  lemma NamesCheckMeans(o: Observations, env: Environment)
    ensures Passes(AccessibilityFindings(o, env), Names) <==>
            && (forall i :: 0 <= i < |o.dialogs| ==> !Blank(o.dialogs[i].name))
            && (forall i :: 0 <= i < |o.popups| ==> !PopupUnnamed(o.popups[i]))
            && forall i :: 0 <= i < |o.controls| ==> !Blank(o.controls[i].name)
  {
    hide AccessibilityFindings;
    hide Blank;
    hide PopupUnnamed;
    ChecksAreParts(o, env);
    FlatMapIsEmpty(o.dialogs, DialogFinder(env));
    FlatMapIsEmpty(o.popups, PopupFinder(env));
    FlatMapIsEmpty(o.controls, NameFinder(env));
    forall i | 0 <= i < |o.dialogs| ensures DialogFinder(env)(o.dialogs[i]) == [] <==> !Blank(o.dialogs[i].name) {
    }
    forall i | 0 <= i < |o.popups| ensures PopupFinder(env)(o.popups[i]) == [] <==> !PopupUnnamed(o.popups[i]) {
    }
    forall i | 0 <= i < |o.controls| ensures NameFinder(env)(o.controls[i]) == [] <==> !Blank(o.controls[i].name) {
    }
  }

  /** The focus check passes exactly when every enabled control outside a composite has tab index 0. */
  lemma FocusCheckMeans(o: Observations, env: Environment)
    ensures Passes(AccessibilityFindings(o, env), FocusOrder) <==>
            forall i :: 0 <= i < |o.controls| && !o.controls[i].disabled && !o.controls[i].composite ==>
              o.controls[i].tabIndex == 0
  {
    hide AccessibilityFindings;
    ChecksAreParts(o, env);
    FlatMapIsEmpty(o.controls, FocusFinder(env));
    forall i | 0 <= i < |o.controls|
      ensures FocusFinder(env)(o.controls[i]) == [] <==>
              (!o.controls[i].disabled && !o.controls[i].composite ==> o.controls[i].tabIndex == 0)
    {
    }
  }

  // ------------------------------------------------------------ normalising

  datatype AccessibilityAudit =
    AccessibilityAudit(landmarks: bool, names: bool, focusOrder: bool, findings: seq<Finding>)

  function RoleOf(): Landmark -> LandmarkRole {
    (l: Landmark) => l.role
  }

  function FoldedName(fold: string -> string): Landmark -> string {
    (l: Landmark) => fold(l.name)
  }

  function NamedTest(fold: string -> string): Landmark -> bool {
    (l: Landmark) => fold(l.name) != ""
  }

  function UnnamedFinder(env: Environment): Landmark -> seq<Finding> {
    (l: Landmark) =>
      if env.fold(l.name) == "" then
        [Finding(Landmarks, UNNAMED_DUPLICATE, l.locator, env.say(NeedsDistinctNames(l.role)))]
      else []
  }

  function DuplicateFinder(env: Environment): Landmark -> seq<Finding> {
    (l: Landmark) => [Finding(Landmarks, DUPLICATE_NAME, l.locator, env.say(UsesSameName(l.role)))]
  }

  function SameNameFinder(ofRole: seq<Landmark>, env: Environment): Landmark -> seq<Finding> {
    (l: Landmark) =>
      if env.fold(l.name) != "" && Count(ofRole, NameTest(env.fold(l.name), env.fold)) > 1 then DuplicateFinder(env)(l)
      else []
  }

  function RepeatedFinder(ofRole: seq<Landmark>, env: Environment): Landmark -> seq<Finding> {
    (l: Landmark) => RepeatedFinding(l, ofRole, env)
  }

  /** One group of same-named landmarks contributes all of itself, or nothing. */
  lemma NameGroup(ofRole: seq<Landmark>, group: seq<Landmark>, name: string, env: Environment)
    requires name != "" && group == Filter(Filter(ofRole, NamedTest(env.fold)), KeyTest(FoldedName(env.fold), name))
    ensures FlatMap(group, SameNameFinder(ofRole, env)) ==
            if |group| > 1 then FlatMap(group, DuplicateFinder(env)) else []
  {
    NamedGroup(ofRole, name, env.fold);
    forall i | 0 <= i < |group|
      ensures env.fold(group[i].name) == name
    {
      FilterHas(Filter(ofRole, NamedTest(env.fold)), KeyTest(FoldedName(env.fold), name), group[i]);
    }
    if |group| > 1 {
      FlatMapSame(group, SameNameFinder(ofRole, env), DuplicateFinder(env));
    } else {
      FlatMapIsEmpty(group, SameNameFinder(ofRole, env));
    }
  }

  lemma {:induction false} NamedGroup(ofRole: seq<Landmark>, name: string, fold: string -> string)
    requires name != ""
    ensures Filter(Filter(ofRole, NamedTest(fold)), KeyTest(FoldedName(fold), name))
            == Filter(ofRole, NameTest(name, fold))
  {
    if ofRole != [] {
      NamedGroup(ofRole[..|ofRole| - 1], name, fold);
      var named := Filter(ofRole, NamedTest(fold));
      if NamedTest(fold)(ofRole[|ofRole| - 1]) {
        assert named[..|named| - 1] == Filter(ofRole[..|ofRole| - 1], NamedTest(fold));
      }
    }
  }

  lemma RepeatedSplits(ofRole: seq<Landmark>, env: Environment)
    ensures multiset(FlatMap(ofRole, RepeatedFinder(ofRole, env)))
            == multiset(FlatMap(ofRole, UnnamedFinder(env)))
               + multiset(FlatMap(Filter(ofRole, NamedTest(env.fold)), SameNameFinder(ofRole, env)))
  {
    FlatMapSum(ofRole, RepeatedFinder(ofRole, env), UnnamedFinder(env), SameNameFinder(ofRole, env));
    FlatMapFilter(ofRole, NamedTest(env.fold), SameNameFinder(ofRole, env));
  }

  /** The first loop over a repeated role: unnamed landmarks are found, the others grouped by folded name. */
  method GroupByName(items: seq<Landmark>, env: Environment)
    returns (unnamed: seq<Finding>, keys: seq<string>, names: map<string, seq<Landmark>>)
    ensures unnamed == FlatMap(items, UnnamedFinder(env))
    ensures Grouped(keys, names, Filter(items, NamedTest(env.fold)), FoldedName(env.fold)) && "" !in keys
  {
    keys, names, unnamed := [], map[], [];
    for i := 0 to |items|
      invariant unnamed == FlatMap(items[..i], UnnamedFinder(env))
      invariant Grouped(keys, names, Filter(items[..i], NamedTest(env.fold)), FoldedName(env.fold)) && "" !in keys
    {
      hide Grouped;
      assert items[..i + 1][..i] == items[..i];
      var item := items[i];
      var name := env.fold(item.name);
      if name == "" {
        unnamed := unnamed
          + [Finding(Landmarks, UNNAMED_DUPLICATE, item.locator, env.say(NeedsDistinctNames(item.role)))];
      } else {
        GroupGrows(keys, names, Filter(items[..i], NamedTest(env.fold)), item, FoldedName(env.fold));
        var matches := if name in names then names[name] else [];
        keys := if name in names then keys else keys + [name];
        names := names[name := matches + [item]];
      }
    }
    assert items[..|items|] == items;
  }

  method SameNames(duplicates: seq<Landmark>, env: Environment) returns (findings: seq<Finding>)
    ensures findings == FlatMap(duplicates, DuplicateFinder(env))
  {
    findings := [];
    for d := 0 to |duplicates|
      invariant findings == FlatMap(duplicates[..d], DuplicateFinder(env))
    {
      assert duplicates[..d + 1][..d] == duplicates[..d];
      var item := duplicates[d];
      findings := findings + [Finding(Landmarks, DUPLICATE_NAME, item.locator, env.say(UsesSameName(item.role)))];
    }
    assert duplicates[..|duplicates|] == duplicates;
  }

  /** The loops over the landmarks of one repeated role. */
  method RepeatedRole(items: seq<Landmark>, env: Environment) returns (findings: seq<Finding>)
    ensures multiset(findings) == multiset(FlatMap(items, RepeatedFinder(items, env)))
  {
    hide SameNameFinder;
    hide DuplicateFinder;
    hide RepeatedFinder;
    hide UnnamedFinder;
    hide NamedTest;
    hide KeyTest;
    hide FoldedName;
    hide InFirst;
    var unnamed, keys, names := GroupByName(items, env);
    ghost var named := Filter(items, NamedTest(env.fold));
    RepeatedSplits(items, env);
    GroupsCover(keys, names, named, FoldedName(env.fold));
    NoneFirst(named, FoldedName(env.fold), keys);
    findings := unnamed;
    for k := 0 to |keys|
      invariant multiset(findings) == multiset(unnamed)
                + multiset(FlatMap(Filter(named, InFirst(FoldedName(env.fold), keys, k)), SameNameFinder(items, env)))
    {
      GroupAdds(keys, named, FoldedName(env.fold), k, SameNameFinder(items, env));
      assert keys[k] in keys;
      var duplicates := names[keys[k]];
      NameGroup(items, duplicates, keys[k], env);
      if |duplicates| > 1 {
        var same := SameNames(duplicates, env);
        findings := findings + same;
      }
    }
  }

  lemma {:induction false} NoneFirst<T, K>(items: seq<T>, key: T -> K, keys: seq<K>)
    ensures Filter(items, InFirst(key, keys, 0)) == []
  {
    if items != [] {
      NoneFirst(items[..|items| - 1], key, keys);
    }
  }

  /** One role's group contributes what its landmarks contribute among all. */
  lemma RoleGroup(all: seq<Landmark>, role: LandmarkRole, env: Environment)
    ensures var ofRole := Filter(all, KeyTest(RoleOf(), role));
            FlatMap(ofRole, LandmarkFinder(all, env)) ==
              if |ofRole| < 2 then [] else FlatMap(ofRole, RepeatedFinder(ofRole, env))
  {
    var ofRole := Filter(all, KeyTest(RoleOf(), role));
    FilterSame(all, KeyTest(RoleOf(), role), RoleTest(role));
    forall i | 0 <= i < |ofRole|
      ensures ofRole[i].role == role
    {
      FilterHas(all, KeyTest(RoleOf(), role), ofRole[i]);
    }
    if |ofRole| < 2 {
      FlatMapIsEmpty(ofRole, LandmarkFinder(all, env));
    } else {
      FlatMapSame(ofRole, LandmarkFinder(all, env), RepeatedFinder(ofRole, env));
    }
  }

  method GroupByRole(landmarks: seq<Landmark>)
    returns (keys: seq<LandmarkRole>, byRole: map<LandmarkRole, seq<Landmark>>)
    ensures Grouped(keys, byRole, landmarks, RoleOf())
  {
    keys, byRole := [], map[];
    for i := 0 to |landmarks|
      invariant Grouped(keys, byRole, landmarks[..i], RoleOf())
    {
      hide Grouped;
      GroupGrows(keys, byRole, landmarks[..i], landmarks[i], RoleOf());
      assert landmarks[..i + 1] == landmarks[..i] + [landmarks[i]];
      var role := landmarks[i].role;
      var items := if role in byRole then byRole[role] else [];
      keys := if role in byRole then keys else keys + [role];
      byRole := byRole[role := items + [landmarks[i]]];
    }
    assert landmarks[..|landmarks|] == landmarks;
  }

  /** The two passes over the landmarks: grouping by role, then the repeated roles. */
  method RepeatedLandmarks(landmarks: seq<Landmark>, env: Environment) returns (findings: seq<Finding>)
    ensures multiset(findings) == multiset(FlatMap(landmarks, LandmarkFinder(landmarks, env)))
  {
    hide LandmarkFinder;
    hide RepeatedFinder;
    hide RoleOf;
    hide KeyTest;
    hide InFirst;
    var keys, byRole := GroupByRole(landmarks);
    GroupsCover(keys, byRole, landmarks, RoleOf());
    NoneFirst(landmarks, RoleOf(), keys);
    findings := [];
    for k := 0 to |keys|
      invariant multiset(findings)
                == multiset(FlatMap(Filter(landmarks, InFirst(RoleOf(), keys, k)), LandmarkFinder(landmarks, env)))
    {
      GroupAdds(keys, landmarks, RoleOf(), k, LandmarkFinder(landmarks, env));
      RoleGroup(landmarks, keys[k], env);
      assert keys[k] in keys;
      var items := byRole[keys[k]];
      if |items| >= 2 {
        var repeated := RepeatedRole(items, env);
        findings := findings + repeated;
      }
    }
  }

  /** Pushing what each item adds, in order. */
  method FindAll<T>(items: seq<T>, finder: T -> seq<Finding>) returns (findings: seq<Finding>)
    ensures findings == FlatMap(items, finder)
  {
    findings := [];
    for i := 0 to |items|
      invariant findings == FlatMap(items[..i], finder)
    {
      assert items[..i + 1][..i] == items[..i];
      findings := findings + finder(items[i]);
    }
    assert items[..|items|] == items;
  }

  function EnabledTest(): Control -> bool {
    (c: Control) => !c.disabled && !c.composite
  }

  function InDocumentOrder(): (Control, Control) -> bool {
    (a: Control, b: Control) => a.documentIndex <= b.documentIndex
  }

  /** The focus findings are pushed in document order; as a multiset they are those of the controls. */
  method FocusFindings(controls: seq<Control>, env: Environment) returns (findings: seq<Finding>)
    ensures multiset(findings) == multiset(FlatMap(controls, FocusFinder(env)))
  {
    var enabled := Sort(Filter(controls, EnabledTest()), InDocumentOrder());
    SortPermutes(Filter(controls, EnabledTest()), InDocumentOrder());
    FlatMapPermutes(enabled, Filter(controls, EnabledTest()), FocusFinder(env));
    FlatMapFilter(controls, EnabledTest(), FocusFinder(env));
    findings := FindAll(enabled, FocusFinder(env));
  }

  lemma PassesPermutes(a: seq<Finding>, b: seq<Finding>, check: Check)
    requires multiset(a) == multiset(b)
    ensures Passes(a, check) == Passes(b, check)
  {
    forall f: Finding { SamePermutation(a, b, f); }
  }

  /** The audit of acceptable observations; none is made of others. */
  method NormalizeAccessibility(o: Observations, env: Environment) returns (audit: Option<AccessibilityAudit>)
    ensures audit.Some? <==> Acceptable(o)
    ensures audit.Some? ==>
              var findings := AccessibilityFindings(o, env);
              && multiset(audit.value.findings) == multiset(findings)
              && audit.value.landmarks == Passes(findings, Landmarks)
              && audit.value.names == Passes(findings, Names)
              && audit.value.focusOrder == Passes(findings, FocusOrder)
  {
    hide Acceptable;
    hide Passes;
    hide MainFinding;
    var ok := CheckObservations(o);
    if !ok {
      return None;
    }
    var mains := Filter(o.landmarks, RoleTest(Main));
    var modals := Filter(o.dialogs, ModalTest());
    var scopes := Filter(o.popups, ScopeTest(o.controls));
    var findings := MainFinding(|mains|, |modals|, |scopes|, env);
    var unnamedDialogs := FindAll(o.dialogs, DialogFinder(env));
    var unnamedPopups := FindAll(o.popups, PopupFinder(env));
    var repeated := RepeatedLandmarks(o.landmarks, env);
    var unnamedControls := FindAll(o.controls, NameFinder(env));
    var focus := FocusFindings(o.controls, env);
    findings := findings + unnamedDialogs + unnamedPopups + repeated + unnamedControls + focus;
    assert multiset(findings) == multiset(AccessibilityFindings(o, env));
    PassesPermutes(findings, AccessibilityFindings(o, env), Landmarks);
    PassesPermutes(findings, AccessibilityFindings(o, env), Names);
    PassesPermutes(findings, AccessibilityFindings(o, env), FocusOrder);
    return Some(AccessibilityAudit(
                  Passes(findings, Landmarks), Passes(findings, Names), Passes(findings, FocusOrder), findings));
  }

  /** The last step of both audits: findings sorted by key. */
  method AuditAccessibility(o: Observations, env: Environment) returns (audit: Option<AccessibilityAudit>)
    requires TotalOrder(env.collate)
    ensures audit == Audited(o, env)
  {
    hide AccessibilityFindings;
    hide Passes;
    hide Acceptable;
    var raw := NormalizeAccessibility(o, env);
    if raw.None? {
      return None;
    }
    SortedAccessibility(raw.value.findings, o, env);
    return Some(raw.value.(findings := Sort(raw.value.findings, ByKey(env.collate))));
  }

  function Audited(o: Observations, env: Environment): Option<AccessibilityAudit> {
    if !Acceptable(o) then None
    else
      var findings := AccessibilityFindings(o, env);
      Some(AccessibilityAudit(Passes(findings, Landmarks), Passes(findings, Names), Passes(findings, FocusOrder),
                              Sort(findings, ByKey(env.collate))))
  }

  /** A normalised accessibility audit depends only on the multisets of observations. */
  lemma AuditForgetsOrder(o: Observations, p: Observations, env: Environment)
    requires TotalOrder(env.collate) && Shuffled(o, p)
    ensures Audited(o, env) == Audited(p, env)
  {
    hide AccessibilityFindings;
    hide Passes;
    hide Acceptable;
    AcceptanceForgetsOrder(o, p);
    assert Shuffled(p, o);
    AcceptanceForgetsOrder(p, o);
    FindingsForgetOrder(o, p, env);
    SortedAccessibility(AccessibilityFindings(o, env), p, env);
    PassesPermutes(AccessibilityFindings(o, env), AccessibilityFindings(p, env), Landmarks);
    PassesPermutes(AccessibilityFindings(o, env), AccessibilityFindings(p, env), Names);
    PassesPermutes(AccessibilityFindings(o, env), AccessibilityFindings(p, env), FocusOrder);
  }

  // ---------------------------------------------------------------- DOM audit

  datatype Issue = Issue(code: string, locator: string, detail: string)

  datatype Viewport = Viewport(innerWidth: int, clientWidth: int, scrollWidth: int)

  datatype DomObservations = DomObservations(
    viewport: Viewport,
    hierarchy: seq<Issue>,
    edgeAlignment: seq<Issue>,
    consistency: seq<Issue>,
    asymmetry: seq<Issue>)

  datatype DomAudit = DomAudit(
    overflow: bool,
    edgeAlignment: bool,
    hierarchy: bool,
    consistency: bool,
    asymmetry: bool,
    findings: seq<Finding>)

  const HORIZONTAL_OVERFLOW := "horizontal-overflow"

  predicate ValidIssue(issue: Issue) {
    && IsKebab(issue.code) && BoundedText(issue.locator, MAX_LOCATOR_CHARS, false)
    && BoundedText(issue.detail, MAX_DETAIL_CHARS, false)
  }

  predicate ValidViewport(v: Viewport) {
    v.innerWidth > 0 && v.clientWidth > 0 && v.scrollWidth > 0
    && v.clientWidth <= v.innerWidth && v.clientWidth <= v.scrollWidth
  }

  predicate ValidIssues(issues: seq<Issue>) {
    |issues| <= MAX_ISSUES_PER_KIND && forall issue :: issue in issues ==> ValidIssue(issue)
  }

  predicate AcceptableDom(o: DomObservations) {
    && ValidViewport(o.viewport) && ValidIssues(o.hierarchy) && ValidIssues(o.edgeAlignment)
    && ValidIssues(o.consistency) && ValidIssues(o.asymmetry)
  }

  function IssueFinder(check: Check): Issue -> seq<Finding> {
    (issue: Issue) => [Finding(check, issue.code, issue.locator, issue.detail)]
  }

  function OverflowPart(v: Viewport, env: Environment): seq<Finding> {
    if v.scrollWidth > v.clientWidth then
      [Finding(Overflow, HORIZONTAL_OVERFLOW, "document.documentElement",
               env.say(ScrollsPast(v.scrollWidth, v.clientWidth)))]
    else []
  }

  /** The findings kind by kind, in the fixed order of the kinds. */
  function DomFindings(o: DomObservations, env: Environment): seq<Finding> {
    FlatMap(o.hierarchy, IssueFinder(Hierarchy))
    + (FlatMap(o.edgeAlignment, IssueFinder(EdgeAlignment))
       + (FlatMap(o.consistency, IssueFinder(Consistency))
          + (FlatMap(o.asymmetry, IssueFinder(Asymmetry))
             + OverflowPart(o.viewport, env))))
  }

  /** All findings are of checks ranked from `low` to `high`, in the order of the ranks. */
  predicate RankedBetween(findings: seq<Finding>, low: nat, high: nat) {
    && (forall i :: 0 <= i < |findings| ==> low <= Rank(findings[i].check) <= high)
    && forall i, j :: 0 <= i < j < |findings| ==> Rank(findings[i].check) <= Rank(findings[j].check)
  }

  lemma RankedAppend(a: seq<Finding>, b: seq<Finding>, low: nat, middle: nat, high: nat)
    requires RankedBetween(a, low, middle) && RankedBetween(b, middle, high) && low <= middle <= high
    ensures RankedBetween(a + b, low, high)
  {
  }

  lemma IssuesAreRanked(issues: seq<Issue>, check: Check)
    ensures RankedBetween(FlatMap(issues, IssueFinder(check)), Rank(check), Rank(check))
  {
    hide Rank;
    var findings := FlatMap(issues, IssueFinder(check));
    forall i | 0 <= i < |findings|
      ensures findings[i].check == check
    {
      FlatMapHas(issues, IssueFinder(check), findings[i]);
    }
  }

  lemma DomTiesInOrder(o: DomObservations, env: Environment)
    ensures TiesInOrder(DomFindings(o, env))
  {
    hide RankedBetween;
    IssuesAreRanked(o.hierarchy, Hierarchy);
    IssuesAreRanked(o.edgeAlignment, EdgeAlignment);
    IssuesAreRanked(o.consistency, Consistency);
    IssuesAreRanked(o.asymmetry, Asymmetry);
    OverflowIsRanked(o.viewport, env);
    var d, e := FlatMap(o.asymmetry, IssueFinder(Asymmetry)), OverflowPart(o.viewport, env);
    var b, c := FlatMap(o.edgeAlignment, IssueFinder(EdgeAlignment)), FlatMap(o.consistency, IssueFinder(Consistency));
    Widen(e, 7, 7, 6);
    RankedAppend(d, e, 6, 6, 7);
    Widen(d + e, 6, 7, 5);
    RankedAppend(c, d + e, 5, 5, 7);
    Widen(c + (d + e), 5, 7, 4);
    RankedAppend(b, c + (d + e), 4, 4, 7);
    Widen(b + (c + (d + e)), 4, 7, 3);
    RankedAppend(FlatMap(o.hierarchy, IssueFinder(Hierarchy)), b + (c + (d + e)), 3, 3, 7);
    RankedHasTies(DomFindings(o, env), 3, 7);
  }

  lemma OverflowIsRanked(v: Viewport, env: Environment)
    ensures RankedBetween(OverflowPart(v, env), 7, 7)
  {
  }

  lemma Widen(findings: seq<Finding>, low: nat, high: nat, lower: nat)
    requires RankedBetween(findings, low, high) && lower <= low
    ensures RankedBetween(findings, lower, high)
  {
  }

  lemma RankedHasTies(findings: seq<Finding>, low: nat, high: nat)
    requires RankedBetween(findings, low, high)
    ensures TiesInOrder(findings)
  {
  }

  function AuditedDom(o: DomObservations, env: Environment): Option<DomAudit> {
    if !AcceptableDom(o) then None
    else
      var findings := DomFindings(o, env);
      Some(DomAudit(Passes(findings, Overflow), Passes(findings, EdgeAlignment), Passes(findings, Hierarchy),
                    Passes(findings, Consistency), Passes(findings, Asymmetry), Sort(findings, ByKey(env.collate))))
  }

  method FindIssues(issues: seq<Issue>, check: Check) returns (findings: Option<seq<Finding>>)
    ensures findings.Some? <==> ValidIssues(issues)
    ensures findings.Some? ==> findings.value == FlatMap(issues, IssueFinder(check))
  {
    hide ValidIssue;
    if |issues| > MAX_ISSUES_PER_KIND {
      return None;
    }
    var found: seq<Finding> := [];
    for i := 0 to |issues|
      invariant forall k :: 0 <= k < i ==> ValidIssue(issues[k])
      invariant found == FlatMap(issues[..i], IssueFinder(check))
    {
      assert issues[..i + 1][..i] == issues[..i];
      if !ValidIssue(issues[i]) {
        return None;
      }
      found := found + [Finding(check, issues[i].code, issues[i].locator, issues[i].detail)];
    }
    assert issues[..|issues|] == issues;
    return Some(found);
  }

  lemma AuditedDomIs(o: DomObservations, env: Environment, findings: seq<Finding>)
    requires AcceptableDom(o)
    requires findings ==
             FlatMap(o.hierarchy, IssueFinder(Hierarchy)) + FlatMap(o.edgeAlignment, IssueFinder(EdgeAlignment))
             + FlatMap(o.consistency, IssueFinder(Consistency)) + FlatMap(o.asymmetry, IssueFinder(Asymmetry))
             + OverflowPart(o.viewport, env)
    ensures findings == DomFindings(o, env)
  {
    hide IssueFinder;
    hide OverflowPart;
  }

  method AuditDom(o: DomObservations, env: Environment) returns (audit: Option<DomAudit>)
    ensures audit == AuditedDom(o, env)
  {
    hide ValidIssues;
    hide ValidViewport;
    hide Passes;
    hide IssueFinder;
    if !ValidViewport(o.viewport) {
      return None;
    }
    var hierarchy := FindIssues(o.hierarchy, Hierarchy);
    if hierarchy.None? {
      return None;
    }
    var edgeAlignment := FindIssues(o.edgeAlignment, EdgeAlignment);
    if edgeAlignment.None? {
      return None;
    }
    var consistency := FindIssues(o.consistency, Consistency);
    if consistency.None? {
      return None;
    }
    var asymmetry := FindIssues(o.asymmetry, Asymmetry);
    if asymmetry.None? {
      return None;
    }
    hide FlatMap;
    var findings := hierarchy.value + edgeAlignment.value + consistency.value + asymmetry.value;
    if o.viewport.scrollWidth > o.viewport.clientWidth {
      findings := findings + [Finding(Overflow, HORIZONTAL_OVERFLOW, "document.documentElement",
                                      env.say(ScrollsPast(o.viewport.scrollWidth, o.viewport.clientWidth)))];
    }
    AuditedDomIs(o, env, findings);
    return Some(DomAudit(Passes(findings, Overflow), Passes(findings, EdgeAlignment), Passes(findings, Hierarchy),
                         Passes(findings, Consistency), Passes(findings, Asymmetry),
                         Sort(findings, ByKey(env.collate))));
  }

  /** The same DOM observations, the issues of each kind in any order. */
  predicate ShuffledDom(o: DomObservations, p: DomObservations) {
    && o.viewport == p.viewport
    && multiset(o.hierarchy) == multiset(p.hierarchy) && multiset(o.edgeAlignment) == multiset(p.edgeAlignment)
    && multiset(o.consistency) == multiset(p.consistency) && multiset(o.asymmetry) == multiset(p.asymmetry)
  }

  lemma ValidIssuesPermutes(a: seq<Issue>, b: seq<Issue>)
    requires multiset(a) == multiset(b)
    ensures ValidIssues(a) == ValidIssues(b)
  {
    SameLength(a, b);
    forall x: Issue { SamePermutation(a, b, x); }
  }

  lemma DomFindingsForgetOrder(o: DomObservations, p: DomObservations, env: Environment)
    requires ShuffledDom(o, p)
    ensures multiset(DomFindings(o, env)) == multiset(DomFindings(p, env))
  {
    FlatMapPermutes(o.hierarchy, p.hierarchy, IssueFinder(Hierarchy));
    FlatMapPermutes(o.edgeAlignment, p.edgeAlignment, IssueFinder(EdgeAlignment));
    FlatMapPermutes(o.consistency, p.consistency, IssueFinder(Consistency));
    FlatMapPermutes(o.asymmetry, p.asymmetry, IssueFinder(Asymmetry));
  }

  /** A normalised DOM audit depends only on the multisets of issues, ties between kinds included. */
  lemma DomAuditForgetsOrder(o: DomObservations, p: DomObservations, env: Environment)
    requires TotalOrder(env.collate) && ShuffledDom(o, p)
    ensures AuditedDom(o, env) == AuditedDom(p, env)
  {
    hide DomFindings;
    hide Passes;
    hide ValidIssues;
    ValidIssuesPermutes(o.hierarchy, p.hierarchy);
    ValidIssuesPermutes(o.edgeAlignment, p.edgeAlignment);
    ValidIssuesPermutes(o.consistency, p.consistency);
    ValidIssuesPermutes(o.asymmetry, p.asymmetry);
    DomFindingsForgetOrder(o, p, env);
    DomTiesInOrder(o, env);
    DomTiesInOrder(p, env);
    SortedFindingsAgree(DomFindings(o, env), DomFindings(p, env), env.collate);
    PassesPermutes(DomFindings(o, env), DomFindings(p, env), Overflow);
    PassesPermutes(DomFindings(o, env), DomFindings(p, env), EdgeAlignment);
    PassesPermutes(DomFindings(o, env), DomFindings(p, env), Hierarchy);
    PassesPermutes(DomFindings(o, env), DomFindings(p, env), Consistency);
    PassesPermutes(DomFindings(o, env), DomFindings(p, env), Asymmetry);
  }
}
