/** POSIX relative paths as artifacts.py takes them apart and puts them back together. */
module Paths {
  import opened Basics
  import opened Text
  import opened Pointers

  /** `name.split("/")` */
  function Split(name: string): seq<string>
    decreases |name|
  {
    var n := TokenLength(name);
    if n == |name| then [name] else [name[..n]] + Split(name[n + 1..])
  }

  predicate Kept(component: string) {
    component != "" && component != "."
  }

  function KeptOf(components: seq<string>): seq<string> {
    if components == [] then []
    else (if Kept(components[0]) then [components[0]] else []) + KeptOf(components[1..])
  }

  /** `PurePosixPath(name).parts`, for a relative name. */
  function Parts(name: string): seq<string> {
    KeptOf(Split(name))
  }

  predicate IsAbsolute(name: string) {
    name != "" && name[0] == '/'
  }

  /** `path.as_posix()` */
  function AsPosix(parts: seq<string>): string {
    Join("/", parts)
  }

  predicate NoSlash(s: string) {
    forall i | 0 <= i < |s| :: s[i] != '/'
  }

  /** A component a directory can hold. */
  predicate IsComponent(s: string) {
    Kept(s) && NoSlash(s)
  }

  predicate AreComponents(parts: seq<string>) {
    parts != [] && forall i | 0 <= i < |parts| :: IsComponent(parts[i])
  }

  /** The name is its own canonical spelling. */
  predicate IsCanonical(name: string) {
    AsPosix(Parts(name)) == name
  }

  lemma {:induction false} TokenHasNoSlash(name: string)
    ensures NoSlash(name[..TokenLength(name)])
  {
    if name != [] && name[0] != '/' {
      TokenHasNoSlash(name[1..]);
      assert name[..TokenLength(name)] == [name[0]] + name[1..][..TokenLength(name[1..])];
    }
  }

  lemma {:induction false} KeptAreComponents(name: string)
    ensures forall c <- Parts(name) :: IsComponent(c)
    decreases |name|
  {
    hide TokenLength, NoSlash;
    var n := TokenLength(name);
    TokenHasNoSlash(name);
    if n == |name| {
      assert name[..n] == name;
      assert Split(name)[1..] == [];
      assert KeptOf([]) == [];
    } else {
      KeptAreComponents(name[n + 1..]);
      assert Split(name)[1..] == Split(name[n + 1..]);
    }
  }

  lemma {:induction false} TokenOfJoined(part: string, rest: string)
    requires NoSlash(part)
    ensures TokenLength(part + "/" + rest) == |part|
    ensures TokenLength(part) == |part|
  {
    if part == [] {
      assert part + "/" + rest == "/" + rest;
    } else {
      TokenOfJoined(part[1..], rest);
      assert (part + "/" + rest)[1..] == part[1..] + "/" + rest;
    }
  }

  /** Joined components are taken apart again: a joined path is canonical. */
  lemma {:induction false} PartsOfJoined(parts: seq<string>)
    requires AreComponents(parts)
    ensures Parts(AsPosix(parts)) == parts && IsCanonical(AsPosix(parts))
  {
    hide TokenLength, NoSlash;
    var first := parts[0];
    if |parts| == 1 {
      TokenOfJoined(first, "");
      assert Split(first) == [first];
      assert KeptOf([first]) == [first] by { assert [first][1..] == []; }
      assert parts == [first];
    } else {
      var rest := AsPosix(parts[1..]);
      PartsOfJoined(parts[1..]);
      TokenOfJoined(first, rest);
      var name := first + "/" + rest;
      assert name[..|first|] == first && name[|first| + 1..] == rest;
      assert Split(name) == [first] + Split(rest);
      assert ([first] + Split(rest))[1..] == Split(rest);
      assert parts == [first] + parts[1..];
    }
  }

  // ----- artifact names -----

  const INVENTORY := "inventory.json"

  /** `_validate_artifact_name` does not raise. */
  predicate ValidName(name: string) {
    && !IsAbsolute(name) && Parts(name) != [] && ".." !in Parts(name) && '\\' !in name
    && name != INVENTORY
  }

  lemma ValidPartsAreComponents(name: string)
    requires ValidName(name)
    ensures AreComponents(Parts(name))
  {
    hide IsComponent, Parts;
    KeptAreComponents(name);
    forall i | 0 <= i < |Parts(name)| ensures IsComponent(Parts(name)[i]) {
      assert Parts(name)[i] in Parts(name);
    }
  }

  // ----- where a name leads -----

  /** The place a walk reaches, component by component: up for "..", nowhere for "" and ".", else down. */
  function Walk(place: seq<string>, components: seq<string>): seq<string>
    decreases |components|
  {
    if components == [] then place
    else
      var c := components[0];
      Walk(if c == ".." then (if place == [] then [] else place[..|place| - 1]) else if Kept(c) then place + [c] else place,
           components[1..])
  }

  /** The place a name leads to from a directory. */
  function Resolve(directory: seq<string>, name: string): seq<string> {
    Walk(if IsAbsolute(name) then [] else directory, Split(name))
  }

  lemma {:induction false} KeptIsListed(components: seq<string>, c: string)
    ensures c in KeptOf(components) <==> c in components && Kept(c)
  {
    if components != [] {
      KeptIsListed(components[1..], c);
      assert components == [components[0]] + components[1..];
    }
  }

  lemma {:induction false} WalksDown(place: seq<string>, components: seq<string>)
    requires ".." !in components
    ensures Walk(place, components) == place + KeptOf(components)
    decreases |components|
  {
    if components != [] {
      assert forall c <- components[1..] :: c in components;
      assert components[0] in components;
      var c := components[0];
      var next := if Kept(c) then place + [c] else place;
      WalksDown(next, components[1..]);
      assert place + [c] + KeptOf(components[1..]) == place + ([c] + KeptOf(components[1..]));
      assert [] + KeptOf(components[1..]) == KeptOf(components[1..]);
    } else {
      assert place + [] == place;
    }
  }

  /**
   A name is valid exactly when it is relative, holds no backslash, is not the inventory's, names some
   component and never goes up. From any directory it then leads to its own parts beneath that directory.
   */
  lemma ValidNameLeadsBeneath(directory: seq<string>, name: string)
    ensures ValidName(name) <==>
            && name != INVENTORY && '\\' !in name && (name != "" ==> name[0] != '/')
            && (exists c :: c in Split(name) && c != "" && c != ".") && ".." !in Split(name)
    ensures ValidName(name) ==> Resolve(directory, name) == directory + Parts(name) && Parts(name) != []
  {
    forall c ensures c in Parts(name) <==> c in Split(name) && Kept(c) { KeptIsListed(Split(name), c); }
    assert Parts(name) != [] <==> exists c :: c in Parts(name) by {
      if Parts(name) != [] { assert Parts(name)[0] in Parts(name); }
    }
    assert Kept("..") by { assert ".."[1] == '.' && |"."| == 1; }
    if ".." !in Split(name) {
      WalksDown(directory, Split(name));
    }
  }
}
