/**
 Permission classification: `askPermissions` sorts a list of permissions into
 one of three outcomes from two per-permission platform answers, which are
 parameters here (`checkSelfPermission(...) == PERMISSION_GRANTED` and
 `shouldShowRequestPermissionRationale`).
 */
module PermissionUtils {

  type Permission = string

  datatype PermissionResult = Granted | ShouldShowRequestPermissionRationale | NotGranted

  /** Kotlin's `Iterable.all`: true of the empty list. */
  function All(ps: seq<Permission>, p: Permission -> bool): (r: bool)
    ensures r <==> forall x :: x in ps ==> p(x)
    decreases |ps|
  {
    if ps == [] then true
    else
      var rest := All(ps[1..], p);
      assert forall x :: x in ps <==> x == ps[0] || x in ps[1..];
      p(ps[0]) && rest
  }

  /** Kotlin's `Iterable.any`: false of the empty list. */
  function Any(ps: seq<Permission>, p: Permission -> bool): (r: bool)
    ensures r <==> exists x :: x in ps && p(x)
    decreases |ps|
  {
    if ps == [] then false
    else
      var rest := Any(ps[1..], p);
      assert forall x :: x in ps <==> x == ps[0] || x in ps[1..];
      p(ps[0]) || rest
  }

  /** `askPermissions`: all granted wins; otherwise any rationale flag; otherwise not granted. */
  function AskPermissions(permissions: seq<Permission>, granted: Permission -> bool,
                          shouldShowRationale: Permission -> bool): (r: PermissionResult)
    ensures r == Granted <==> forall x :: x in permissions ==> granted(x)
    ensures r == ShouldShowRequestPermissionRationale <==>
      (exists x :: x in permissions && !granted(x)) &&
      (exists x :: x in permissions && shouldShowRationale(x))
    ensures r == NotGranted <==>
      (exists x :: x in permissions && !granted(x)) &&
      (forall x :: x in permissions ==> !shouldShowRationale(x))
  {
    if All(permissions, granted) then Granted
    else if Any(permissions, shouldShowRationale) then ShouldShowRequestPermissionRationale
    else NotGranted
  }

  /** Grant takes precedence over any rationale flag. */
  lemma GrantedTakesPrecedence(permissions: seq<Permission>, granted: Permission -> bool,
                               shouldShowRationale: Permission -> bool)
    requires forall x :: x in permissions ==> granted(x)
    ensures AskPermissions(permissions, granted, shouldShowRationale) == Granted
  {
  }

  /** Nothing to ask for counts as granted. */
  lemma EmptyListGranted(granted: Permission -> bool, shouldShowRationale: Permission -> bool)
    ensures AskPermissions([], granted, shouldShowRationale) == Granted
  {
  }

  /** Asking again about the same permissions in a permuted or repeated order gives the same result. */
  lemma AskPermissionsDependsOnlyOnMembers(ps: seq<Permission>, qs: seq<Permission>,
                                           granted: Permission -> bool, shouldShowRationale: Permission -> bool)
    requires forall x :: x in ps <==> x in qs
    ensures AskPermissions(ps, granted, shouldShowRationale) == AskPermissions(qs, granted, shouldShowRationale)
  {
  }
}
