/**
 * Expansion of the `@BundleName/...` shorthand for migration directories
 * (`checkIfBundleRelativePath` and `getBundlePath` of DoctrineMigrationsExtension).
 *
 * The container parameter `kernel.bundles_metadata` is given as an optional list of
 * bundles in registration order: `None` when the container has no such parameter.
 */
module BundlePath {
  import opened Wrappers

  /** One entry of `kernel.bundles_metadata`: a bundle's name and the `path` of its root. */
  datatype Bundle = Bundle(name: string, path: string)

  datatype PathError =
    /** The container has no parameter of this name. */
    | ParameterNotFound(parameter: string)
    /** A RuntimeException naming the bundle and listing the registered ones. */
    | BundleNotRegistered(bundle: string, available: seq<string>)

  const BundlesMetadataParameter := "kernel.bundles_metadata"
  const Marker := '@'
  const Separator := '/'

  predicate IsBundleRelative(path: string) {
    |path| > 0 && path[0] == Marker
  }

  /** The registered bundle names, in registration order (`array_keys`). */
  function Names(bundles: seq<Bundle>): (names: seq<string>)
    ensures |names| == |bundles|
    ensures forall i :: 0 <= i < |bundles| ==> names[i] == bundles[i].name
  {
    seq(|bundles|, i requires 0 <= i < |bundles| => bundles[i].name)
  }

  /** Where the first piece of `explode('/', s)` ends: the first '/' of `s`, or its length. */
  function FirstSeparator(s: string): (i: nat)
    ensures i <= |s|
    ensures Separator !in s[..i]
    ensures i < |s| ==> s[i] == Separator
  {
    if s == [] || s[0] == Separator then 0
    else
      var j := FirstSeparator(s[1..]);
      assert s[..1 + j] == [s[0]] + s[1..][..j];
      1 + j
  }

  lemma {:induction false} FirstSeparatorIsFirst(s: string, i: nat)
    requires i <= |s| && Separator !in s[..i]
    requires i < |s| ==> s[i] == Separator
    ensures FirstSeparator(s) == i
  {
    if i > 0 {
      assert s[0] in s[..i];
      assert s[1..][..i - 1] == s[1..i];
      assert Separator !in s[1..][..i - 1] by {
        assert forall c :: c in s[1..i] ==> c in s[..i];
      }
      FirstSeparatorIsFirst(s[1..], i - 1);
    }
  }

  /**
   * The bundle name of a bundle-relative path: the first piece of the path at '/',
   * without its leading '@'.
   */
  function BundleName(path: string): (name: string)
    requires IsBundleRelative(path)
    ensures Separator !in name
    ensures 1 + |name| <= |path|
    ensures path == [Marker] + name + path[1 + |name|..]
    ensures 1 + |name| < |path| ==> path[1 + |name|] == Separator
  {
    var first := path[..FirstSeparator(path)];
    assert first[1..] == path[1..FirstSeparator(path)];
    assert forall c :: c in first[1..] ==> c in first;
    first[1..]
  }

  /** The path registered for `name`, taken from the first entry of that name. */
  function FindBundle(bundles: seq<Bundle>, name: string): (r: Option<string>)
    ensures r.None? <==> name !in Names(bundles)
    ensures r.Some? ==> Bundle(name, r.value) in bundles
  {
    if bundles == [] then None
    else if bundles[0].name == name then Some(bundles[0].path)
    else
      var r := FindBundle(bundles[1..], name);
      assert Names(bundles) == [bundles[0].name] + Names(bundles[1..]);
      r
  }

  /** The lookup answers from the first bundle registered under `name`. */
  lemma {:induction false} FindBundleFirst(bundles: seq<Bundle>, name: string)
    requires FindBundle(bundles, name).Some?
    ensures var k := FirstNamed(bundles, name);
            k < |bundles| && bundles[k] == Bundle(name, FindBundle(bundles, name).value)
            && forall j | 0 <= j < k :: bundles[j].name != name
  {
    if bundles[0].name != name {
      FindBundleFirst(bundles[1..], name);
      forall j | 1 <= j <= FirstNamed(bundles[1..], name) ensures bundles[j].name != name {
        assert bundles[j] == bundles[1..][j - 1];
      }
    }
  }

  /** The index of the first bundle registered under `name`, or the number of bundles. */
  function FirstNamed(bundles: seq<Bundle>, name: string): (k: nat)
    ensures k <= |bundles|
  {
    if bundles == [] || bundles[0].name == name then 0 else 1 + FirstNamed(bundles[1..], name)
  }

  /** `getBundlePath`: the root of a registered bundle, or the error the lookup raises. */
  function GetBundlePath(name: string, metadata: Option<seq<Bundle>>): (r: Result<string, PathError>)
    ensures metadata.None? ==> r == Err(ParameterNotFound(BundlesMetadataParameter))
    ensures metadata.Some? && name in Names(metadata.value) ==>
              r.Ok? && Bundle(name, r.value) in metadata.value
    ensures metadata.Some? && name !in Names(metadata.value) ==>
              r == Err(BundleNotRegistered(name, Names(metadata.value)))
  {
    match metadata
    case None => Err(ParameterNotFound(BundlesMetadataParameter))
    case Some(bundles) =>
      match FindBundle(bundles, name)
      case None => Err(BundleNotRegistered(name, Names(bundles)))
      case Some(root) => Ok(root)
  }

  /**
   * `checkIfBundleRelativePath`: a path that does not start with '@' is returned as it is;
   * otherwise the bundle's root replaces `@Name` and the rest of the path is kept verbatim.
   */
  function CheckIfBundleRelativePath(path: string, metadata: Option<seq<Bundle>>): (r: Result<string, PathError>)
    ensures !IsBundleRelative(path) ==> r == Ok(path)
    ensures IsBundleRelative(path) ==>
              var name := BundleName(path);
              && (r.Ok? ==> metadata.Some? && exists root :: Bundle(name, root) in metadata.value
                                                            && r.value == root + path[1 + |name|..])
              && (r.Err? ==> r == GetBundlePath(name, metadata))
  {
    if IsBundleRelative(path) then
      var name := BundleName(path);
      match GetBundlePath(name, metadata)
      case Ok(root) => Ok(root + path[1 + |name|..])
      case Err(e) => Err(e)
    else
      Ok(path)
  }

  /** `@Name` followed by nothing or by a '/' resolves to Name's root followed by that rest. */
  lemma {:induction false} ResolveRegistered(name: string, rest: string, bundles: seq<Bundle>, root: string)
    requires Separator !in name
    requires rest == [] || rest[0] == Separator
    requires FindBundle(bundles, name) == Some(root)
    ensures CheckIfBundleRelativePath([Marker] + name + rest, Some(bundles)) == Ok(root + rest)
  {
    var path := [Marker] + name + rest;
    BundleNameIs(name, rest);
    assert path[1 + |name|..] == rest;
  }

  /** The bundle name of `@name` + `rest` is `name`, whatever `rest` holds after its leading '/'. */
  lemma {:induction false} BundleNameIs(name: string, rest: string)
    requires Separator !in name
    requires rest == [] || rest[0] == Separator
    ensures BundleName([Marker] + name + rest) == name
  {
    var path := [Marker] + name + rest;
    assert path[..1 + |name|] == [Marker] + name;
    assert Separator !in path[..1 + |name|];
    FirstSeparatorIsFirst(path, 1 + |name|);
    assert path[..FirstSeparator(path)][1..] == name;
  }

  /** An unregistered bundle name fails with an error naming it and every registered bundle. */
  lemma {:induction false} UnregisteredBundleFails(name: string, rest: string, bundles: seq<Bundle>)
    requires Separator !in name
    requires rest == [] || rest[0] == Separator
    requires name !in Names(bundles)
    ensures CheckIfBundleRelativePath([Marker] + name + rest, Some(bundles))
         == Err(BundleNotRegistered(name, Names(bundles)))
  {
    BundleNameIs(name, rest);
  }

  /** The worked example: `@AppBundle/sub/dir` under a bundle rooted at `/app/bundles/AppBundle`. */
  lemma ExampleResolution()
    ensures CheckIfBundleRelativePath("@AppBundle/sub/dir", Some([Bundle("AppBundle", "/app/bundles/AppBundle")]))
         == Ok("/app/bundles/AppBundle/sub/dir")
  {
    var name, rest, root := "AppBundle", "/sub/dir", "/app/bundles/AppBundle";
    var bundles := [Bundle(name, root)];
    assert Separator !in name;
    ResolveRegistered(name, rest, bundles, root);
    assert "@AppBundle/sub/dir" == [Marker] + name + rest;
    assert "/app/bundles/AppBundle/sub/dir" == root + rest;
  }

  /** `implode(sep, parts)` */
  function Join(sep: string, parts: seq<string>): (r: string)
    ensures parts != [] ==> parts[0] <= r
    ensures |parts| > 1 ==> OccursAt(sep, r, |parts[0]|)
  {
    if parts == [] then ""
    else if |parts| == 1 then parts[0]
    else
      var r := parts[0] + sep + Join(sep, parts[1..]);
      assert r[|parts[0]|..|parts[0]| + |sep|] == sep;
      r
  }

  /** `needle` stands in `hay` from offset `k` on. */
  predicate OccursAt(needle: string, hay: string, k: int) {
    0 <= k <= |hay| - |needle| && hay[k..k + |needle|] == needle
  }

  ghost predicate Occurs(needle: string, hay: string) {
    exists k :: OccursAt(needle, hay, k)
  }

  /** The text of the RuntimeException raised for an unregistered bundle. */
  function NotRegisteredMessage(bundle: string, available: seq<string>): (msg: string)
    ensures Occurs(bundle, msg)
  {
    var head := "The bundle \"";
    var msg := head + bundle + "\" has not been registered, available bundles: " + Join(", ", available);
    assert msg[|head|..|head| + |bundle|] == bundle;
    assert OccursAt(bundle, msg, |head|);
    msg
  }

  lemma OccursInside(needle: string, prefix: string, hay: string, suffix: string)
    requires Occurs(needle, hay)
    ensures Occurs(needle, prefix + hay + suffix)
  {
    var k :| OccursAt(needle, hay, k);
    var all := prefix + hay + suffix;
    assert all[|prefix| + k..|prefix| + k + |needle|] == hay[k..k + |needle|];
    assert OccursAt(needle, all, |prefix| + k);
  }

  lemma {:induction false} JoinListsEach(sep: string, parts: seq<string>, i: nat)
    requires i < |parts|
    ensures Occurs(parts[i], Join(sep, parts))
  {
    if |parts| == 1 || i == 0 {
      var j := Join(sep, parts);
      assert j[0..|parts[0]|] == parts[0];
      assert OccursAt(parts[i], j, 0);
    } else {
      JoinListsEach(sep, parts[1..], i - 1);
      OccursInside(parts[i], parts[0] + sep, Join(sep, parts[1..]), "");
      assert parts[0] + sep + Join(sep, parts[1..]) + "" == Join(sep, parts);
    }
  }

  /** The message names the bundle and lists every registered bundle name. */
  lemma MessageNamesEveryBundle(bundle: string, available: seq<string>)
    ensures Occurs(bundle, NotRegisteredMessage(bundle, available))
    ensures forall i :: 0 <= i < |available| ==> Occurs(available[i], NotRegisteredMessage(bundle, available))
  {
    var head := "The bundle \"";
    var mid := "\" has not been registered, available bundles: ";
    var msg := NotRegisteredMessage(bundle, available);
    assert msg[|head|..|head| + |bundle|] == bundle;
    assert OccursAt(bundle, msg, |head|);
    forall i | 0 <= i < |available|
      ensures Occurs(available[i], msg)
    {
      JoinListsEach(", ", available, i);
      OccursInside(available[i], head + bundle + mid, Join(", ", available), "");
      assert head + bundle + mid + Join(", ", available) + "" == msg;
    }
  }
}
