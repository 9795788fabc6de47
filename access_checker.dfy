/**
 * The view access policy of `AccessChecker.isAccessGranted`: the view name
 * loses its first "View", then a fixed ladder of membership tests over four
 * view lists and the presence of a signed-in user decides.
 */
module AccessChecker {
  import opened Wrappers

  /** `pat` occurs in `s` starting at position `j`. */
  predicate OccursAt(s: string, pat: string, j: nat)
  {
    j + |pat| <= |s| && s[j..j + |pat|] == pat
  }

  /** `pat` occurs in `s` at `k` and nowhere before `k`. */
  predicate FirstOccurrence(s: string, pat: string, k: nat)
  {
    OccursAt(s, pat, k) && forall j: nat :: j < k ==> !OccursAt(s, pat, j)
  }

  /** `pat` does not occur in `s` at all. */
  predicate Absent(s: string, pat: string)
  {
    forall j: nat :: j <= |s| ==> !OccursAt(s, pat, j)
  }

  /** The first position at or after `from` where `pat` occurs in `s`, if any. */
  function IndexOfFrom(s: string, pat: string, from: nat): (r: Option<nat>)
    decreases |s| - from
    ensures r.Some? ==> from <= r.value && OccursAt(s, pat, r.value)
    ensures r.Some? ==> forall j: nat :: from <= j < r.value ==> !OccursAt(s, pat, j)
    ensures r.None? ==> forall j: nat :: from <= j ==> !OccursAt(s, pat, j)
  {
    if from + |pat| > |s| then None
    else if OccursAt(s, pat, from) then Some(from)
    else IndexOfFrom(s, pat, from + 1)
  }

  /**
   * `s` with its first occurrence of `pat` deleted, as Java's
   * `s.replaceFirst(pat, "")` does for a pattern without regular-expression
   * metacharacters; `s` itself when `pat` does not occur.
   */
  function RemoveFirst(s: string, pat: string): (r: string)
    ensures Absent(s, pat) ==> r == s
    ensures forall k: nat :: FirstOccurrence(s, pat, k) ==>
              |r| == |s| - |pat| && r == s[..k] + s[k + |pat|..] && s == r[..k] + pat + r[k..]
  {
    match IndexOfFrom(s, pat, 0)
    case None => s
    case Some(k) =>
      assert FirstOccurrence(s, pat, k);
      s[..k] + s[k + |pat|..]
  }

  /** The name of a view class loses its "View" suffix when "View" occurs nowhere earlier. */
  lemma RemoveFirstSuffix(name: string, pat: string)
    requires forall j: nat :: j < |name| ==> !OccursAt(name + pat, pat, j)
    ensures RemoveFirst(name + pat, pat) == name
  {
    var s := name + pat;
    assert s[|name|..|name| + |pat|] == pat;
    assert FirstOccurrence(s, pat, |name|);
    assert s[..|name|] == name;
  }

  /** The four static view lists of `AccessChecker`. */
  datatype ViewLists = ViewLists(
    permitAllViews: seq<string>,
    userViews: seq<string>,
    adminViews: seq<string>,
    authenticatedViews: seq<string>)

  /** The name the lists are searched for. */
  function Normalised(s: string): string
  {
    RemoveFirst(s, "View")
  }

  /**
   * `isAccessGranted(ui, s, view)` with the signed-in user as `user`. The
   * `userViews` and `adminViews` branches are empty in the source, so they
   * fall through to the final denial.
   */
  function IsAccessGranted<UI, View, User>(lists: ViewLists, user: Option<User>, ui: UI, s: string, view: View): (granted: bool)
    ensures granted <==> Normalised(s) in lists.permitAllViews
                         || (user.Some? && Normalised(s) in lists.authenticatedViews)
  {
    var name := Normalised(s);
    if name in lists.permitAllViews then true
    else if user.None? then false
    else if name in lists.authenticatedViews then true
    else if name in lists.userViews then false
    else if name in lists.adminViews then false
    else false
  }

  /** A permit-all view is shown with or without a user. */
  lemma PermitAllGranted<UI, View, User>(lists: ViewLists, user: Option<User>, ui: UI, s: string, view: View)
    requires Normalised(s) in lists.permitAllViews
    ensures IsAccessGranted(lists, user, ui, s, view)
  {
  }

  /** Without a user, every view outside the permit-all list is refused. */
  lemma AnonymousDenied<UI, View, User>(lists: ViewLists, ui: UI, s: string, view: View)
    requires Normalised(s) !in lists.permitAllViews
    ensures !IsAccessGranted<UI, View, User>(lists, None, ui, s, view)
  {
  }

  /** With a user, an authenticated view is shown. */
  lemma AuthenticatedGranted<UI, View, User>(lists: ViewLists, user: User, ui: UI, s: string, view: View)
    requires Normalised(s) in lists.authenticatedViews
    ensures IsAccessGranted(lists, Some(user), ui, s, view)
  {
  }

  /**
   * Even with a user, a view that is only a user or admin view, or in no
   * list at all, is refused.
   */
  lemma OtherViewsDenied<UI, View, User>(lists: ViewLists, user: User, ui: UI, s: string, view: View)
    requires Normalised(s) !in lists.permitAllViews && Normalised(s) !in lists.authenticatedViews
    ensures !IsAccessGranted(lists, Some(user), ui, s, view)
  {
  }

  /** The decision depends on neither the `ui` nor the `view` argument. */
  lemma IgnoresUiAndView<UI, View, User>(lists: ViewLists, user: Option<User>, s: string, ui1: UI, ui2: UI, view1: View, view2: View)
    ensures IsAccessGranted(lists, user, ui1, s, view1) == IsAccessGranted(lists, user, ui2, s, view2)
  {
  }

  /** A class-style name such as "HomeView" is looked up without its suffix. */
  lemma HomeViewNormalised()
    ensures Normalised("HomeView") == "Home"
  {
    var s := "Home" + "View";
    forall j: nat | j < 4 ensures !OccursAt(s, "View", j) {
      assert s[j..j + 4][0] == s[j] != 'V';
    }
    RemoveFirstSuffix("Home", "View");
    assert s == "HomeView";
  }
}
