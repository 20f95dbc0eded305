/** The rename applied to a validated token's claims
    (src/Extensions/ClaimTransformationExtension.cs): the first role, email
    and name-identifier claim in long URI form is replaced by a short
    `role`, `email` or `sub` claim with the same value. */
module ClaimTransformation {
  import opened Results

  const RoleClaimUri := "http://schemas.microsoft.com/ws/2008/06/identity/claims/role"
  const EmailClaimUri := "http://schemas.xmlsoap.org/ws/2005/05/identity/claims/emailaddress"
  const NameIdentifierClaimUri := "http://schemas.xmlsoap.org/ws/2005/05/identity/claims/nameidentifier"

  /** The System.Security.Claims.ClaimTypes constants the code also tests
      against; each equals the literal URI written beside it in the source. */
  const ClaimTypesRole := "http://schemas.microsoft.com/ws/2008/06/identity/claims/role"
  const ClaimTypesEmail := "http://schemas.xmlsoap.org/ws/2005/05/identity/claims/emailaddress"
  const ClaimTypesNameIdentifier := "http://schemas.xmlsoap.org/ws/2005/05/identity/claims/nameidentifier"

  /** The three claims the gateway renames. */
  datatype ClaimKind = RoleKind | EmailKind | SubKind

  /** The predicate handed to FindFirst for each kind. */
  predicate IsLongForm(k: ClaimKind, claimType: string) {
    match k
    case RoleKind => claimType == RoleClaimUri || claimType == ClaimTypesRole
    case EmailKind => claimType == EmailClaimUri || claimType == ClaimTypesEmail
    case SubKind => claimType == NameIdentifierClaimUri || claimType == ClaimTypesNameIdentifier
  }

  /** The type of the claim that replaces a long-form claim of kind k. */
  function ShortForm(k: ClaimKind): string {
    match k
    case RoleKind => "role"
    case EmailKind => "email"
    case SubKind => "sub"
  }

  // ---------------------------------------------------------------------
  // Claims as values: the specification of the rename
  // ---------------------------------------------------------------------

  datatype ClaimData = ClaimData(claimType: string, value: string)

  predicate Matches(k: ClaimKind, d: ClaimData) {
    IsLongForm(k, d.claimType)
  }

  /** Index of the first claim of kind k, as ClaimsIdentity.FindFirst finds it. */
  function FirstIndex(ds: seq<ClaimData>, k: ClaimKind): (r: Option<nat>)
    ensures r.Some? ==> r.value < |ds| && Matches(k, ds[r.value])
    ensures r.Some? ==> forall j :: 0 <= j < r.value ==> !Matches(k, ds[j])
    ensures r.None? ==> forall j :: 0 <= j < |ds| ==> !Matches(k, ds[j])
  {
    if |ds| == 0 then None
    else if Matches(k, ds[0]) then Some(0)
    else match FirstIndex(ds[1..], k)
      case None => None
      case Some(i) => Some(i + 1)
  }

  function RemoveAt(ds: seq<ClaimData>, i: nat): seq<ClaimData>
    requires i < |ds|
  {
    ds[..i] + ds[i + 1..]
  }

  /** The list without its first claim of kind k (unchanged if there is none). */
  function RemoveFirstOf(ds: seq<ClaimData>, k: ClaimKind): seq<ClaimData> {
    match FirstIndex(ds, k)
    case None => ds
    case Some(i) => RemoveAt(ds, i)
  }

  /** The short claim that replaces the first claim of kind k, if any. */
  function Added(ds: seq<ClaimData>, k: ClaimKind): seq<ClaimData> {
    match FirstIndex(ds, k)
    case None => []
    case Some(i) => [ClaimData(ShortForm(k), ds[i].value)]
  }

  /** What stays of the original list: each found claim removed. */
  function Kept(ds: seq<ClaimData>): seq<ClaimData> {
    RemoveFirstOf(RemoveFirstOf(RemoveFirstOf(ds, RoleKind), EmailKind), SubKind)
  }

  /** The new claims, in the order role, email, sub. */
  function Additions(ds: seq<ClaimData>): seq<ClaimData> {
    Added(ds, RoleKind) + Added(ds, EmailKind) + Added(ds, SubKind)
  }

  /** The claim list after TransformClaims: removals first, then additions
      appended at the end. */
  function Normalize(ds: seq<ClaimData>): seq<ClaimData> {
    Kept(ds) + Additions(ds)
  }

  /** Claims neither of a long-form type nor of one of the short types. */
  predicate IsUnrelated(d: ClaimData) {
    && !Matches(RoleKind, d) && !Matches(EmailKind, d) && !Matches(SubKind, d)
    && d.claimType != "role" && d.claimType != "email" && d.claimType != "sub"
  }

  /** Which claims a Filter keeps. */
  datatype Selector = LongFormOf(kind: ClaimKind) | Unrelated

  predicate Selects(sel: Selector, d: ClaimData) {
    match sel
    case LongFormOf(k) => Matches(k, d)
    case Unrelated => IsUnrelated(d)
  }

  /** The selected claims, in their original order. */
  function Filter(ds: seq<ClaimData>, sel: Selector): (r: seq<ClaimData>)
    ensures |r| <= |ds|
  {
    if |ds| == 0 then []
    else (if Selects(sel, ds[0]) then [ds[0]] else []) + Filter(ds[1..], sel)
  }

  // ---------------------------------------------------------------------
  // Properties of the specification
  // ---------------------------------------------------------------------

  lemma LongFormsDisjoint(k: ClaimKind, k': ClaimKind, d: ClaimData)
    requires k != k' && Matches(k, d)
    ensures !Matches(k', d)
  {
    assert |RoleClaimUri| == 60 && |EmailClaimUri| == 66 && |NameIdentifierClaimUri| == 68;
  }

  lemma ShortFormsAreNotLongForms(k: ClaimKind, k': ClaimKind)
    ensures !IsLongForm(k', ShortForm(k))
  {
  }

  /** FirstIndex is determined by its contract: the first matching position. */
  lemma FirstIndexIs(ds: seq<ClaimData>, k: ClaimKind, i: nat)
    requires i < |ds| && Matches(k, ds[i])
    requires forall j :: 0 <= j < i ==> !Matches(k, ds[j])
    ensures FirstIndex(ds, k) == Some(i)
  {
  }

  lemma FirstIndexNone(ds: seq<ClaimData>, k: ClaimKind)
    requires forall j :: 0 <= j < |ds| ==> !Matches(k, ds[j])
    ensures FirstIndex(ds, k) == None
  {
  }

  /** Removing a claim of another kind keeps the first claim of kind k: its
      index shifts down by one when the removed claim came before it. */
  lemma FirstIndexAfterRemoveAtSome(ds: seq<ClaimData>, i: nat, k: ClaimKind, j: nat)
    requires i < |ds| && !Matches(k, ds[i]) && FirstIndex(ds, k) == Some(j)
    ensures FirstIndex(RemoveAt(ds, i), k) == Some(if j < i then j else j - 1)
  {
    var r := RemoveAt(ds, i);
    var j' := if j < i then j else j - 1;
    assert r[j'] == ds[j];
    forall m | 0 <= m < j'
      ensures !Matches(k, r[m])
    {
      if m < i {
        assert r[m] == ds[m];
      } else {
        assert r[m] == ds[m + 1];
      }
    }
    FirstIndexIs(r, k, j');
  }

  lemma FirstIndexAfterRemoveAtNone(ds: seq<ClaimData>, i: nat, k: ClaimKind)
    requires i < |ds| && FirstIndex(ds, k).None?
    ensures FirstIndex(RemoveAt(ds, i), k).None?
  {
    var r := RemoveAt(ds, i);
    forall m | 0 <= m < |r|
      ensures !Matches(k, r[m])
    {
      if m < i {
        assert r[m] == ds[m];
      } else {
        assert r[m] == ds[m + 1];
      }
    }
    FirstIndexNone(r, k);
  }

  /** Removing the first claim of kind k leaves a claim of each other kind
      exactly when there was one. */
  lemma FirstIndexAfterRemoveFirstOf(ds: seq<ClaimData>, k: ClaimKind, k': ClaimKind)
    requires k != k'
    ensures FirstIndex(RemoveFirstOf(ds, k), k').Some? == FirstIndex(ds, k').Some?
  {
    if FirstIndex(ds, k).Some? {
      var i := FirstIndex(ds, k).value;
      assert RemoveFirstOf(ds, k) == RemoveAt(ds, i);
      LongFormsDisjoint(k, k', ds[i]);
      if FirstIndex(ds, k').Some? {
        FirstIndexAfterRemoveAtSome(ds, i, k', FirstIndex(ds, k').value);
      } else {
        FirstIndexAfterRemoveAtNone(ds, i, k');
      }
    }
  }

  lemma RemoveFirstOfLength(ds: seq<ClaimData>, k: ClaimKind)
    ensures |RemoveFirstOf(ds, k)| + |Added(ds, k)| == |ds|
  {
  }

  lemma {:induction false} FilterConcat(a: seq<ClaimData>, b: seq<ClaimData>, sel: Selector)
    ensures Filter(a + b, sel) == Filter(a, sel) + Filter(b, sel)
  {
    if |a| == 0 {
      assert a + b == b;
    } else {
      assert (a + b)[1..] == a[1..] + b;
      FilterConcat(a[1..], b, sel);
    }
  }

  lemma {:induction false} FilterNone(ds: seq<ClaimData>, sel: Selector)
    requires forall j :: 0 <= j < |ds| ==> !Selects(sel, ds[j])
    ensures Filter(ds, sel) == []
  {
    if |ds| > 0 {
      assert forall j :: 0 <= j < |ds[1..]| ==> ds[1..][j] == ds[j + 1];
      FilterNone(ds[1..], sel);
    }
  }

  lemma FilterSingleton(d: ClaimData, sel: Selector)
    ensures Filter([d], sel) == if Selects(sel, d) then [d] else []
  {
    assert [d][1..] == [];
  }

  /** Filtering the list with claim i taken out: claim i is the only one lost. */
  lemma FilterRemoveAt(ds: seq<ClaimData>, i: nat, sel: Selector)
    requires i < |ds|
    ensures Filter(ds, sel) == Filter(ds[..i], sel) + Filter([ds[i]], sel) + Filter(ds[i + 1..], sel)
    ensures Filter(RemoveAt(ds, i), sel) == Filter(ds[..i], sel) + Filter(ds[i + 1..], sel)
  {
    assert ds == ds[..i] + [ds[i]] + ds[i + 1..];
    FilterConcat(ds[..i] + [ds[i]], ds[i + 1..], sel);
    FilterConcat(ds[..i], [ds[i]], sel);
    FilterConcat(ds[..i], ds[i + 1..], sel);
  }

  /** Removing a claim the selector does not pick leaves the filter unchanged. */
  lemma FilterRemoveFirstOfOther(ds: seq<ClaimData>, k: ClaimKind, sel: Selector)
    requires sel == Unrelated || sel.kind != k
    ensures Filter(RemoveFirstOf(ds, k), sel) == Filter(ds, sel)
  {
    match FirstIndex(ds, k)
    case None =>
    case Some(i) =>
      FilterRemoveAt(ds, i, sel);
      if sel.LongFormOf? {
        LongFormsDisjoint(k, sel.kind, ds[i]);
      }
      assert !Selects(sel, ds[i]);
      FilterSingleton(ds[i], sel);
      var a, b := Filter(ds[..i], sel), Filter(ds[i + 1..], sel);
      assert Filter(ds, sel) == a + [] + b;
      assert a + [] + b == a + b;
  }

  /** Removing the first claim of kind k drops the head of its long forms. */
  lemma FilterRemoveFirstOfSame(ds: seq<ClaimData>, k: ClaimKind)
    ensures Filter(RemoveFirstOf(ds, k), LongFormOf(k)) ==
      if Filter(ds, LongFormOf(k)) == [] then [] else Filter(ds, LongFormOf(k))[1..]
  {
    match FirstIndex(ds, k)
    case None =>
      FilterNone(ds, LongFormOf(k));
    case Some(i) =>
      FilterRemoveAt(ds, i, LongFormOf(k));
      FilterNone(ds[..i], LongFormOf(k));
      FilterSingleton(ds[i], LongFormOf(k));
  }

  /** A new short claim is selected by no selector. */
  lemma FilterAdded(ds: seq<ClaimData>, k: ClaimKind, sel: Selector)
    ensures Filter(Added(ds, k), sel) == []
  {
    if FirstIndex(ds, k).Some? {
      var d := ClaimData(ShortForm(k), ds[FirstIndex(ds, k).value].value);
      assert Added(ds, k) == [d];
      ShortFormsAreNotLongForms(k, RoleKind);
      ShortFormsAreNotLongForms(k, EmailKind);
      ShortFormsAreNotLongForms(k, SubKind);
      assert !Selects(sel, d);
      FilterSingleton(d, sel);
    }
  }

  lemma FilterAdditions(ds: seq<ClaimData>, sel: Selector)
    ensures Filter(Additions(ds), sel) == []
  {
    FilterAdded(ds, RoleKind, sel);
    FilterAdded(ds, EmailKind, sel);
    FilterAdded(ds, SubKind, sel);
    FilterConcat(Added(ds, RoleKind) + Added(ds, EmailKind), Added(ds, SubKind), sel);
    FilterConcat(Added(ds, RoleKind), Added(ds, EmailKind), sel);
  }

  /** TransformClaims pairs each removal with one addition, so the number of
      claims never changes. */
  lemma NormalizePreservesCount(ds: seq<ClaimData>)
    ensures |Normalize(ds)| == |ds|
  {
    var d1 := RemoveFirstOf(ds, RoleKind);
    var d2 := RemoveFirstOf(d1, EmailKind);
    FirstIndexAfterRemoveFirstOf(ds, RoleKind, EmailKind);
    FirstIndexAfterRemoveFirstOf(ds, RoleKind, SubKind);
    FirstIndexAfterRemoveFirstOf(d1, EmailKind, SubKind);
    RemoveFirstOfLength(ds, RoleKind);
    RemoveFirstOfLength(d1, EmailKind);
    RemoveFirstOfLength(d2, SubKind);
  }

  /** Only the first long-form claim of each kind is rewritten: the later
      ones stay, in their order, and a claim that was the only one of its
      kind is gone afterwards. */
  lemma NormalizeRewritesOnlyFirst(ds: seq<ClaimData>, k: ClaimKind)
    ensures Filter(Normalize(ds), LongFormOf(k)) ==
      if Filter(ds, LongFormOf(k)) == [] then [] else Filter(ds, LongFormOf(k))[1..]
  {
    var sel := LongFormOf(k);
    var d1 := RemoveFirstOf(ds, RoleKind);
    var d2 := RemoveFirstOf(d1, EmailKind);
    FilterConcat(Kept(ds), Additions(ds), sel);
    FilterAdditions(ds, sel);
    match k
    case RoleKind =>
      FilterRemoveFirstOfSame(ds, RoleKind);
      FilterRemoveFirstOfOther(d1, EmailKind, sel);
      FilterRemoveFirstOfOther(d2, SubKind, sel);
    case EmailKind =>
      FilterRemoveFirstOfOther(ds, RoleKind, sel);
      FilterRemoveFirstOfSame(d1, EmailKind);
      FilterRemoveFirstOfOther(d2, SubKind, sel);
    case SubKind =>
      FilterRemoveFirstOfOther(ds, RoleKind, sel);
      FilterRemoveFirstOfOther(d1, EmailKind, sel);
      FilterRemoveFirstOfSame(d2, SubKind);
  }

  /** The first long-form claim of kind k becomes a short claim with the
      same value. */
  lemma NormalizeAddsShortClaim(ds: seq<ClaimData>, k: ClaimKind)
    requires FirstIndex(ds, k).Some?
    ensures ClaimData(ShortForm(k), ds[FirstIndex(ds, k).value].value) in Normalize(ds)
  {
    var c := ClaimData(ShortForm(k), ds[FirstIndex(ds, k).value].value);
    assert c in Added(ds, k);
    assert c in Additions(ds);
  }

  /** Claims of any other type are untouched: they keep their values and
      their relative order. */
  lemma NormalizeKeepsUnrelatedClaims(ds: seq<ClaimData>)
    ensures Filter(Normalize(ds), Unrelated) == Filter(ds, Unrelated)
  {
    var d1 := RemoveFirstOf(ds, RoleKind);
    var d2 := RemoveFirstOf(d1, EmailKind);
    FilterConcat(Kept(ds), Additions(ds), Unrelated);
    FilterAdditions(ds, Unrelated);
    FilterRemoveFirstOfOther(ds, RoleKind, Unrelated);
    FilterRemoveFirstOfOther(d1, EmailKind, Unrelated);
    FilterRemoveFirstOfOther(d2, SubKind, Unrelated);
  }

  /** A claim of none of the three long forms is never removed. */
  lemma RemoveFirstOfRetains(ds: seq<ClaimData>, k: ClaimKind, d: ClaimData)
    requires d in ds && !Matches(k, d)
    ensures d in RemoveFirstOf(ds, k)
  {
    if FirstIndex(ds, k).Some? {
      var i := FirstIndex(ds, k).value;
      var j :| 0 <= j < |ds| && ds[j] == d;
      if j < i {
        assert RemoveAt(ds, i)[j] == d;
      } else {
        assert RemoveAt(ds, i)[j - 1] == d;
      }
    }
  }

  lemma KeptRetainsUnmatched(ds: seq<ClaimData>, i: nat)
    requires i < |ds| && !Matches(RoleKind, ds[i]) && !Matches(EmailKind, ds[i]) && !Matches(SubKind, ds[i])
    ensures ds[i] in Normalize(ds)
  {
    var d1 := RemoveFirstOf(ds, RoleKind);
    var d2 := RemoveFirstOf(d1, EmailKind);
    RemoveFirstOfRetains(ds, RoleKind, ds[i]);
    RemoveFirstOfRetains(d1, EmailKind, ds[i]);
    RemoveFirstOfRetains(d2, SubKind, ds[i]);
  }

  /** With no long-form claim present the list is left exactly as it was. */
  lemma NormalizeWithoutLongFormsIsIdentity(ds: seq<ClaimData>)
    requires forall j, k :: 0 <= j < |ds| ==> !Matches(k, ds[j])
    ensures Normalize(ds) == ds
  {
    assert FirstIndex(ds, RoleKind).None?;
    assert FirstIndex(ds, EmailKind).None?;
    assert FirstIndex(ds, SubKind).None?;
  }

  lemma AdditionsOfAllThree(ds: seq<ClaimData>)
    requires FirstIndex(ds, RoleKind).Some? && FirstIndex(ds, EmailKind).Some? && FirstIndex(ds, SubKind).Some?
    ensures Additions(ds) == [
      ClaimData("role", ds[FirstIndex(ds, RoleKind).value].value),
      ClaimData("email", ds[FirstIndex(ds, EmailKind).value].value),
      ClaimData("sub", ds[FirstIndex(ds, SubKind).value].value)]
  {
  }

  /** With one claim of each kind present, the list ends with the three new
      claims in the order role, email, sub. */
  lemma NormalizeAppendsInOrder(ds: seq<ClaimData>)
    requires FirstIndex(ds, RoleKind).Some? && FirstIndex(ds, EmailKind).Some? && FirstIndex(ds, SubKind).Some?
    ensures |ds| >= 3
    ensures Normalize(ds)[|ds| - 3..] == [
      ClaimData("role", ds[FirstIndex(ds, RoleKind).value].value),
      ClaimData("email", ds[FirstIndex(ds, EmailKind).value].value),
      ClaimData("sub", ds[FirstIndex(ds, SubKind).value].value)]
  {
    NormalizePreservesCount(ds);
    AdditionsOfAllThree(ds);
    TailOfConcat(Kept(ds), Additions(ds));
  }

  lemma TailOfConcat(a: seq<ClaimData>, b: seq<ClaimData>)
    ensures (a + b)[|a|..] == b
  {
  }

  // ---------------------------------------------------------------------
  // Claims as objects: the mutable identity the source rewrites
  // ---------------------------------------------------------------------

  /** System.Security.Claims.Claim: an immutable object compared by reference. */
  class Claim {
    const claimType: string
    const value: string

    constructor (claimType: string, value: string)
      ensures this.claimType == claimType && this.value == value
    {
      this.claimType := claimType;
      this.value := value;
    }
  }

  /** The values carried by a list of claim objects. */
  function View(s: seq<Claim>): seq<ClaimData> {
    seq(|s|, i requires 0 <= i < |s| => ClaimData(s[i].claimType, s[i].value))
  }

  /** Index of the first occurrence of an object, as RemoveClaim looks for it. */
  function RefIndex(s: seq<Claim>, c: Claim): (r: nat)
    requires c in s
    ensures r < |s| && s[r] == c
    ensures forall j :: 0 <= j < r ==> s[j] != c
  {
    if s[0] == c then 0 else 1 + RefIndex(s[1..], c)
  }

  /** The list after RemoveClaim(c): the first occurrence of the object is
      removed; a claim that is not there leaves the list unchanged. */
  function RemoveRef(s: seq<Claim>, c: Claim): seq<Claim> {
    if c in s then s[..RefIndex(s, c)] + s[RefIndex(s, c) + 1..] else s
  }

  /** The list after removing the given claims one after the other. */
  function RemoveRefs(s: seq<Claim>, rs: seq<Claim>): seq<Claim>
    decreases |rs|
  {
    if |rs| == 0 then s else RemoveRef(RemoveRefs(s, rs[..|rs| - 1]), rs[|rs| - 1])
  }

  /** The claim FindFirst returns for kind k, as a list of zero or one. */
  function Found(s: seq<Claim>, k: ClaimKind): seq<Claim> {
    match FirstIndex(View(s), k)
    case None => []
    case Some(i) => [s[i]]
  }

  /** The claims TransformClaims collects for removal, in its order. */
  function FoundAll(s: seq<Claim>): seq<Claim> {
    Found(s, RoleKind) + Found(s, EmailKind) + Found(s, SubKind)
  }

  lemma ViewRemoveAt(s: seq<Claim>, i: nat)
    requires i < |s|
    ensures View(s[..i] + s[i + 1..]) == RemoveAt(View(s), i)
  {
    var l, r := View(s[..i] + s[i + 1..]), RemoveAt(View(s), i);
    assert |l| == |r|;
    forall j | 0 <= j < |l| ensures l[j] == r[j] {
      if j < i {
        assert (s[..i] + s[i + 1..])[j] == s[j];
      } else {
        assert (s[..i] + s[i + 1..])[j] == s[j + 1];
      }
    }
  }

  /** Removing the object FindFirst found removes exactly that position:
      the claims before it have other types, so they are other objects. */
  lemma RemoveFoundIsRemoveAt(s: seq<Claim>, k: ClaimKind, i: nat)
    requires FirstIndex(View(s), k) == Some(i)
    ensures RemoveRefs(s, Found(s, k)) == s[..i] + s[i + 1..]
  {
    assert Found(s, k) == [s[i]];
    assert Found(s, k)[..0] == [];
    assert RemoveRefs(s, Found(s, k)) == RemoveRef(s, s[i]);
    forall r | 0 <= r < i
      ensures s[r] != s[i]
    {
      EarlierClaimIsOtherObject(s, k, i, r);
    }
    RefIndexIs(s, s[i], i);
  }

  /** A claim before the first one of kind k has another type, so it is
      another object. */
  lemma EarlierClaimIsOtherObject(s: seq<Claim>, k: ClaimKind, i: nat, r: nat)
    requires FirstIndex(View(s), k) == Some(i) && r < i
    ensures s[r] != s[i]
  {
    assert View(s)[r].claimType == s[r].claimType;
    assert View(s)[i].claimType == s[i].claimType;
  }

  lemma {:induction false} RefIndexIs(s: seq<Claim>, c: Claim, i: nat)
    requires i < |s| && s[i] == c
    requires forall j :: 0 <= j < i ==> s[j] != c
    ensures RefIndex(s, c) == i
  {
    if i > 0 {
      assert forall j :: 0 <= j < i - 1 ==> s[1..][j] == s[j + 1];
      RefIndexIs(s[1..], c, i - 1);
    }
  }

  lemma RemoveFoundClaim(s: seq<Claim>, k: ClaimKind)
    requires FirstIndex(View(s), k).Some?
    ensures View(RemoveRefs(s, Found(s, k))) == RemoveFirstOf(View(s), k)
  {
    var i := FirstIndex(View(s), k).value;
    RemoveFoundIsRemoveAt(s, k, i);
    ViewRemoveAt(s, i);
  }

  /** Taking out a claim of another kind keeps the one FindFirst finds for k'. */
  lemma FoundAfterRemoveAt(s: seq<Claim>, i: nat, k': ClaimKind)
    requires i < |s| && !Matches(k', View(s)[i])
    ensures Found(s[..i] + s[i + 1..], k') == Found(s, k')
  {
    var ds := View(s);
    if FirstIndex(ds, k').Some? {
      var j := FirstIndex(ds, k').value;
      var j1: nat := if j < i then j else j - 1;
      FirstIndexAfterRemoveAtSome(ds, i, k', j);
      FoundIs(s, k', j);
      FoundInRemoveAt(s, i, k', j1);
      assert (s[..i] + s[i + 1..])[j1] == s[j];
    } else {
      FirstIndexAfterRemoveAtNone(ds, i, k');
      FoundNone(s, k');
      FoundInRemoveAt(s, i, k', 0);
    }
  }

  /** Found on the list with position i taken out, read off the view. */
  lemma FoundInRemoveAt(s: seq<Claim>, i: nat, k: ClaimKind, j: nat)
    requires i < |s|
    ensures FirstIndex(RemoveAt(View(s), i), k) == Some(j) ==> Found(s[..i] + s[i + 1..], k) == [(s[..i] + s[i + 1..])[j]]
    ensures FirstIndex(RemoveAt(View(s), i), k).None? ==> Found(s[..i] + s[i + 1..], k) == []
  {
    ViewRemoveAt(s, i);
  }

  lemma FoundIs(s: seq<Claim>, k: ClaimKind, j: nat)
    requires FirstIndex(View(s), k) == Some(j)
    ensures j < |s| && Found(s, k) == [s[j]]
  {
  }

  lemma FoundNone(s: seq<Claim>, k: ClaimKind)
    requires FirstIndex(View(s), k).None?
    ensures Found(s, k) == []
  {
  }

  /** Removing a claim of another kind keeps the one FindFirst finds for k'. */
  lemma FoundAfterRemovingOther(s: seq<Claim>, k: ClaimKind, k': ClaimKind)
    requires k != k'
    ensures Found(RemoveRefs(s, Found(s, k)), k') == Found(s, k')
  {
    match FirstIndex(View(s), k)
    case None =>
      assert Found(s, k) == [];
    case Some(i) =>
      RemoveFoundIsRemoveAt(s, k, i);
      LongFormsDisjoint(k, k', View(s)[i]);
      FoundAfterRemoveAt(s, i, k');
  }

  lemma {:induction false} RemoveRefsConcat(s: seq<Claim>, xs: seq<Claim>, ys: seq<Claim>)
    ensures RemoveRefs(s, xs + ys) == RemoveRefs(RemoveRefs(s, xs), ys)
    decreases |ys|
  {
    if |ys| == 0 {
      assert xs + ys == xs;
    } else {
      var ys' := ys[..|ys| - 1];
      assert (xs + ys)[..|xs + ys| - 1] == xs + ys';
      assert (xs + ys)[|xs + ys| - 1] == ys[|ys| - 1];
      RemoveRefsConcat(s, xs, ys');
    }
  }

  lemma RemoveFoundAny(s: seq<Claim>, k: ClaimKind)
    ensures View(RemoveRefs(s, Found(s, k))) == RemoveFirstOf(View(s), k)
  {
    if FirstIndex(View(s), k).Some? {
      RemoveFoundClaim(s, k);
    }
  }

  /** Removing the three collected claims one after the other leaves exactly
      the kept part of the specification. */
  lemma RemoveFoundAll(s: seq<Claim>)
    ensures View(RemoveRefs(s, FoundAll(s))) == Kept(View(s))
  {
    var fr, fe, fs := Found(s, RoleKind), Found(s, EmailKind), Found(s, SubKind);
    RemoveRefsConcat(s, fr + fe, fs);
    RemoveRefsConcat(s, fr, fe);
    var s1 := RemoveRefs(s, fr);
    RemoveFoundAny(s, RoleKind);
    FoundAfterRemovingOther(s, RoleKind, EmailKind);
    FoundAfterRemovingOther(s, RoleKind, SubKind);
    assert Found(s1, EmailKind) == fe;
    var s2 := RemoveRefs(s1, fe);
    RemoveFoundAny(s1, EmailKind);
    FoundAfterRemovingOther(s1, EmailKind, SubKind);
    assert Found(s2, SubKind) == fs;
    RemoveFoundAny(s2, SubKind);
  }

  /** Every claim of rs is still in the list when its turn to be removed
      comes, so none of the RemoveClaim calls fails. */
  predicate AllPresent(s: seq<Claim>, rs: seq<Claim>)
    decreases |rs|
  {
    |rs| == 0 || (AllPresent(s, rs[..|rs| - 1]) && rs[|rs| - 1] in RemoveRefs(s, rs[..|rs| - 1]))
  }

  /** A failed removal is not undone by later ones. */
  lemma {:induction false} AllPresentPrefix(s: seq<Claim>, rs: seq<Claim>, m: nat)
    requires m <= |rs| && AllPresent(s, rs)
    ensures AllPresent(s, rs[..m])
    decreases |rs|
  {
    if m < |rs| {
      var rs' := rs[..|rs| - 1];
      assert rs'[..m] == rs[..m];
      AllPresentPrefix(s, rs', m);
    } else {
      assert rs[..m] == rs;
    }
  }

  lemma FoundPresent(s: seq<Claim>, k: ClaimKind)
    ensures AllPresent(s, Found(s, k))
  {
    var f := Found(s, k);
    if |f| == 1 {
      assert f[..0] == [];
    }
  }

  lemma {:induction false} AllPresentConcat(s: seq<Claim>, xs: seq<Claim>, ys: seq<Claim>)
    requires AllPresent(s, xs) && AllPresent(RemoveRefs(s, xs), ys)
    ensures AllPresent(s, xs + ys)
    decreases |ys|
  {
    if |ys| == 0 {
      assert xs + ys == xs;
    } else {
      var ys' := ys[..|ys| - 1];
      assert (xs + ys)[..|xs + ys| - 1] == xs + ys';
      assert (xs + ys)[|xs + ys| - 1] == ys[|ys| - 1];
      AllPresentConcat(s, xs, ys');
      RemoveRefsConcat(s, xs, ys');
    }
  }

  /** The three claims TransformClaims collects can all be removed in turn:
      each is a different object, and removing one keeps the others. */
  lemma FoundAllPresent(s: seq<Claim>)
    ensures AllPresent(s, FoundAll(s))
  {
    var fr, fe, fs := Found(s, RoleKind), Found(s, EmailKind), Found(s, SubKind);
    var s1 := RemoveRefs(s, fr);
    RemoveRefsConcat(s, fr, fe);
    FoundPresent(s, RoleKind);
    FoundAfterRemovingOther(s, RoleKind, EmailKind);
    FoundPresent(s1, EmailKind);
    AllPresentConcat(s, fr, fe);
    FoundAfterRemovingOther(s, RoleKind, SubKind);
    FoundAfterRemovingOther(s1, EmailKind, SubKind);
    FoundPresent(RemoveRefs(s1, fe), SubKind);
    AllPresentConcat(s, fr + fe, fs);
  }

  lemma ViewConcat(a: seq<Claim>, b: seq<Claim>)
    ensures View(a + b) == View(a) + View(b)
  {
  }

  /** What one FindFirst block of TransformClaims contributes: the found
      claim to remove and a short claim with its value to add. */
  lemma Collected(s: seq<Claim>, k: ClaimKind, found: Claim?, rs0: seq<Claim>, as0: seq<Claim>,
                  rs: seq<Claim>, as_: seq<Claim>)
    requires Found(s, k) == if found == null then [] else [found]
    requires rs == rs0 + (if found == null then [] else [found])
    requires |as_| == |as0| + (if found == null then 0 else 1) && as_[..|as0|] == as0
    requires found != null ==> as_[|as0|].claimType == ShortForm(k) && as_[|as0|].value == found.value
    ensures rs == rs0 + Found(s, k) && View(as_) == View(as0) + Added(View(s), k)
  {
    if found != null {
      var i := FirstIndex(View(s), k).value;
      assert s[i] == found;
      assert Added(View(s), k) == [ClaimData(ShortForm(k), found.value)];
      assert as_ == as0 + [as_[|as0|]];
      ViewConcat(as0, [as_[|as0|]]);
    } else {
      assert as_ == as0;
    }
  }

  /** The claims a TransformClaims call rewrites. ClaimsIdentity itself is a
      framework class; only the three members the rename uses are modelled. */
  class ClaimsIdentity {
    var claims: seq<Claim>

    constructor (claims: seq<Claim>)
      ensures this.claims == claims
    {
      this.claims := claims;
    }

    /** FindFirst with the long-form predicate of kind k. */
    method FindFirst(k: ClaimKind) returns (found: Claim?)
      ensures Found(claims, k) == if found == null then [] else [found]
    {
      var i := 0;
      while i < |claims|
        invariant 0 <= i <= |claims|
        invariant forall j :: 0 <= j < i ==> !IsLongForm(k, claims[j].claimType)
      {
        if IsLongForm(k, claims[i].claimType) {
          assert View(claims)[i].claimType == claims[i].claimType;
          return claims[i];
        }
        i := i + 1;
      }
      return null;
    }

    /** RemoveClaim: removes that very object; `removed` is false where .NET
        would throw because the claim is not in this identity. */
    method RemoveClaim(c: Claim) returns (removed: bool)
      modifies this
      ensures removed == (c in old(claims))
      ensures claims == RemoveRef(old(claims), c)
    {
      var i := 0;
      while i < |claims|
        invariant 0 <= i <= |claims|
        invariant forall j :: 0 <= j < i ==> claims[j] != c
      {
        if claims[i] == c {
          claims := claims[..i] + claims[i + 1..];
          return true;
        }
        i := i + 1;
      }
      return false;
    }

    /** AddClaim: a claim from outside the identity is appended as a copy. */
    method AddClaim(c: Claim)
      modifies this
      ensures |claims| == |old(claims)| + 1 && claims[..|old(claims)|] == old(claims)
      ensures fresh(claims[|old(claims)|])
      ensures View(claims) == View(old(claims)) + [ClaimData(c.claimType, c.value)]
    {
      var copy := new Claim(c.claimType, c.value);
      claims := claims + [copy];
    }
  }

  /** Stands for the message of the InvalidOperationException that
      ClaimsIdentity.RemoveClaim throws for a claim it cannot remove (the
      framework's full text is not reproduced). */
  const ClaimNotRemovedMessage := "The Claim was not able to be removed."

  /** What the token-validated context holds: no principal, a principal whose
      identity is not a ClaimsIdentity, or one with a ClaimsIdentity. */
  datatype Principal = NoPrincipal | OtherIdentity | WithClaimsIdentity(identity: ClaimsIdentity)

  function Footprint(p: Principal): set<ClaimsIdentity> {
    if p.WithClaimsIdentity? then {p.identity} else {}
  }

  /** One of the three "map" blocks of TransformClaims: FindFirst for kind
      k, then queue the found claim for removal and a short claim with its
      value for addition. */
  method CollectRename(identity: ClaimsIdentity, k: ClaimKind, toRemove: seq<Claim>, toAdd: seq<Claim>)
    returns (toRemove': seq<Claim>, toAdd': seq<Claim>)
    ensures toRemove' == toRemove + Found(identity.claims, k)
    ensures |toAdd'| == |toAdd| + |Added(View(identity.claims), k)| && toAdd'[..|toAdd|] == toAdd
    ensures View(toAdd') == View(toAdd) + Added(View(identity.claims), k)
  {
    toRemove', toAdd' := toRemove, toAdd;
    var found := identity.FindFirst(k);
    if found != null {
      toRemove' := toRemove' + [found];
      var c := new Claim(ShortForm(k), found.value);
      toAdd' := toAdd' + [c];
    }
    Collected(identity.claims, k, found, toRemove, toAdd, toRemove', toAdd');
  }

  /** The first foreach: RemoveClaim for every queued claim, in order. A
      claim that is no longer there makes RemoveClaim throw, which ends the
      loop with the claims removed so far. */
  method RemoveEach(identity: ClaimsIdentity, claimsToRemove: seq<Claim>) returns (r: Outcome)
    modifies identity
    ensures r.Pass? <==> AllPresent(old(identity.claims), claimsToRemove)
    ensures r.Pass? ==> identity.claims == RemoveRefs(old(identity.claims), claimsToRemove)
    ensures r.Fail? ==>
      && r.message == ClaimNotRemovedMessage
      && exists m :: 0 <= m < |claimsToRemove| && identity.claims == RemoveRefs(old(identity.claims), claimsToRemove[..m])
           && claimsToRemove[m] !in identity.claims
  {
    ghost var s := identity.claims;
    for m := 0 to |claimsToRemove|
      invariant identity.claims == RemoveRefs(s, claimsToRemove[..m])
      invariant AllPresent(s, claimsToRemove[..m])
    {
      assert claimsToRemove[..m + 1][..m] == claimsToRemove[..m];
      var removed := identity.RemoveClaim(claimsToRemove[m]);
      if !removed {
        assert !AllPresent(s, claimsToRemove[..m + 1]);
        if AllPresent(s, claimsToRemove) {
          AllPresentPrefix(s, claimsToRemove, m + 1);
        }
        return Fail(ClaimNotRemovedMessage);
      }
    }
    assert claimsToRemove[..|claimsToRemove|] == claimsToRemove;
    return Pass;
  }

  /** The second foreach: AddClaim for every queued claim, in order. */
  method AddEach(identity: ClaimsIdentity, claimsToAdd: seq<Claim>)
    modifies identity
    ensures |identity.claims| == |old(identity.claims)| + |claimsToAdd|
    ensures identity.claims[..|old(identity.claims)|] == old(identity.claims)
    ensures View(identity.claims) == View(old(identity.claims)) + View(claimsToAdd)
  {
    ghost var kept := identity.claims;
    for m := 0 to |claimsToAdd|
      invariant |identity.claims| == |kept| + m && identity.claims[..|kept|] == kept
      invariant View(identity.claims) == View(kept) + View(claimsToAdd[..m])
    {
      assert claimsToAdd[..m + 1] == claimsToAdd[..m] + [claimsToAdd[m]];
      ViewConcat(claimsToAdd[..m], [claimsToAdd[m]]);
      identity.AddClaim(claimsToAdd[m]);
    }
    assert claimsToAdd[..|claimsToAdd|] == claimsToAdd;
  }

  /** ClaimTransformationExtension.TransformClaims. Without a ClaimsIdentity
      it returns at once and changes nothing (its frame is empty). It never
      fails: every RemoveClaim it makes finds its claim. */
  method TransformClaims(p: Principal) returns (r: Outcome)
    modifies Footprint(p)
    ensures r == Pass
    ensures p.WithClaimsIdentity? ==>
      View(p.identity.claims) == Normalize(old(View(p.identity.claims)))
    ensures p.WithClaimsIdentity? ==>
      p.identity.claims[..|Kept(old(View(p.identity.claims)))|] == RemoveRefs(old(p.identity.claims), FoundAll(old(p.identity.claims)))
  {
    if !p.WithClaimsIdentity? {
      return Pass;
    }
    var identity := p.identity;
    ghost var s := identity.claims;
    var claimsToAdd: seq<Claim> := [];
    var claimsToRemove: seq<Claim> := [];
    claimsToRemove, claimsToAdd := CollectRename(identity, RoleKind, claimsToRemove, claimsToAdd);
    claimsToRemove, claimsToAdd := CollectRename(identity, EmailKind, claimsToRemove, claimsToAdd);
    claimsToRemove, claimsToAdd := CollectRename(identity, SubKind, claimsToRemove, claimsToAdd);
    assert claimsToRemove == FoundAll(s);
    assert View(claimsToAdd) == Additions(View(s));

    FoundAllPresent(s);
    r := RemoveEach(identity, claimsToRemove);
    if r.Pass? {
      RemoveFoundAll(s);
      AddEach(identity, claimsToAdd);
    }
  }
}
