/** A POSIX directory tree without links: what is at each place, how a path is walked, and what making
    a directory and its missing parents does. */
module Disks {
  import opened Contracts

  // From the root of the file system down, "." and ".." resolved.
  type Place = seq<string>

  datatype Node =
    | Folder
    | PayloadFile(payload: Payload)
    | ManifestFile(artifact: WeightArtifact)
    | LatestFile(manifestPath: string)

  type Files = map<Place, Node>

  predicate IsFolder(files: Files, at: Place) {
    at == [] || (at in files && files[at].Folder?)
  }

  function Up(at: Place): Place {
    if at == [] then [] else at[..|at| - 1]
  }

  function Step(at: Place, part: string): Place {
    if part == ".." then Up(at) else at + [part]
  }

  /** Where the components of a path lead, provided that every directory on the way exists. */
  function Land(at: Place, parts: seq<string>): Place {
    if parts == [] then at else Step(Land(at, parts[..|parts| - 1]), parts[|parts| - 1])
  }

  /** Every directory on the way exists; what they lead to need not. */
  predicate Walkable(files: Files, at: Place, parts: seq<string>) {
    parts == [] ||
    var front := parts[..|parts| - 1];
    Walkable(files, at, front) && IsFolder(files, Land(at, front))
  }

  /** The components lead to a directory that exists. */
  predicate Opened(files: Files, at: Place, parts: seq<string>) {
    Walkable(files, at, parts) && IsFolder(files, Land(at, parts))
  }

  lemma LandSnoc(at: Place, parts: seq<string>, part: string)
    ensures Land(at, parts + [part]) == Step(Land(at, parts), part)
  {
    assert (parts + [part])[..|parts|] == parts;
  }

  lemma WalkSnoc(files: Files, at: Place, parts: seq<string>, part: string)
    ensures Walkable(files, at, parts + [part]) <==> Opened(files, at, parts)
  {
    assert (parts + [part])[..|parts|] == parts;
  }

  lemma {:induction false} LandAppend(at: Place, a: seq<string>, b: seq<string>)
    ensures Land(at, a + b) == Land(Land(at, a), b)
  {
    if b == [] {
      assert a + b == a;
    } else {
      var front := b[..|b| - 1];
      LandAppend(at, a, front);
      assert a + b == (a + front) + [b[|b| - 1]];
      LandSnoc(at, a + front, b[|b| - 1]);
    }
  }

  lemma OpenSnoc(files: Files, at: Place, parts: seq<string>, part: string)
    ensures Opened(files, at, parts + [part])
       <==> Opened(files, at, parts) && IsFolder(files, Step(Land(at, parts), part))
  {
    LandSnoc(at, parts, part);
    WalkSnoc(files, at, parts, part);
  }

  lemma {:induction false} OpenJoin(files: Files, at: Place, a: seq<string>, b: seq<string>)
    requires Opened(files, at, a) && Opened(files, Land(at, a), b)
    ensures Opened(files, at, a + b)
  {
    if b == [] {
      assert a + b == a;
    } else {
      var front, last := b[..|b| - 1], b[|b| - 1];
      assert a + b == (a + front) + [last] && b == front + [last];
      OpenSnoc(files, Land(at, a), front, last);
      OpenJoin(files, at, a, front);
      LandAppend(at, a, front);
      OpenSnoc(files, at, a + front, last);
    }
  }

  lemma {:induction false} OpenPrefix(files: Files, at: Place, a: seq<string>, b: seq<string>)
    requires Opened(files, at, a + b)
    ensures Opened(files, at, a)
  {
    if b == [] {
      assert a + b == a;
    } else {
      var front, last := b[..|b| - 1], b[|b| - 1];
      assert a + b == (a + front) + [last];
      OpenSnoc(files, at, a + front, last);
      OpenPrefix(files, at, a, front);
    }
  }

  /** Components other than ".." are simply added. */
  lemma {:induction false} LandDown(at: Place, parts: seq<string>)
    requires ".." !in parts
    ensures Land(at, parts) == at + parts
  {
    if parts != [] {
      var front := parts[..|parts| - 1];
      assert forall part :: part in front ==> part in parts;
      LandDown(at, front);
      assert parts == front + [parts[|parts| - 1]];
    } else {
      assert at + parts == at;
    }
  }

  // ---------------------------------------------------------------- trees

  /** Whatever is somewhere has a directory above it. */
  ghost predicate Tree(files: Files) {
    forall at {:trigger Up(at)} :: at in files ==> IsFolder(files, Up(at))
  }

  /** In a tree, a path without ".." to a directory that exists can be walked. */
  lemma {:induction false} TreeOpens(files: Files, at: Place, parts: seq<string>)
    requires Tree(files) && ".." !in parts && IsFolder(files, at + parts)
    ensures Opened(files, at, parts)
  {
    LandDown(at, parts);
    if parts != [] {
      var front, last := parts[..|parts| - 1], parts[|parts| - 1];
      assert parts == front + [last] && Up(at + parts) == at + front;
      assert forall part :: part in front ==> part in parts;
      TreeOpens(files, at, front);
      OpenSnoc(files, at, front, last);
      LandDown(at, front);
    }
  }

  /** Below a path that opens it is enough that there is no "..". */
  lemma OpensBelow(files: Files, at: Place, above: seq<string>, rest: seq<string>)
    requires Tree(files) && ".." !in rest && IsFolder(files, Land(at, above + rest)) && Opened(files, at, above)
    ensures Opened(files, at, above + rest)
  {
    LandAppend(at, above, rest);
    LandDown(Land(at, above), rest);
    TreeOpens(files, Land(at, above), rest);
    OpenJoin(files, at, above, rest);
  }

  /** Directories are not taken away. */
  ghost predicate FoldersStay(before: Files, after: Files) {
    forall at :: IsFolder(before, at) ==> IsFolder(after, at)
  }

  lemma {:induction false} StaysWalkable(before: Files, after: Files, at: Place, parts: seq<string>)
    requires FoldersStay(before, after) && Walkable(before, at, parts)
    ensures Walkable(after, at, parts)
  {
    if parts != [] {
      StaysWalkable(before, after, at, parts[..|parts| - 1]);
    }
  }

  // ---------------------------------------------------------------- writing a file

  /** A file can be written in a directory that exists, where no directory is. */
  predicate Writable(files: Files, at: Place) {
    at != [] && IsFolder(files, Up(at)) && !IsFolder(files, at)
  }

  lemma PutKeepsTree(files: Files, at: Place, node: Node)
    requires Tree(files) && Writable(files, at) && !node.Folder?
    ensures Tree(files[at := node])
    ensures FoldersStay(files, files[at := node]) && FoldersStay(files[at := node], files)
  {
  }

  // ---------------------------------------------------------------- making a directory and its parents

  /** Path.mkdir(parents=True, exist_ok=True), which gives up where a file is in the way. */
  function MakeFolders(files: Files, at: Place, parts: seq<string>): Files {
    if parts == [] then files
    else
      var front := parts[..|parts| - 1];
      var made, place := MakeFolders(files, at, front), Land(at, parts);
      if !IsFolder(made, Land(at, front)) || place == [] || place in made then made else made[place := Folder]
  }

  /** Only directories are new. */
  ghost predicate OnlyAdds(before: Files, after: Files) {
    && (forall at :: at in before ==> at in after && after[at] == before[at])
    && (forall at :: at in after && at !in before ==> after[at].Folder?)
  }

  lemma {:induction false} MakeOnlyAdds(files: Files, at: Place, parts: seq<string>)
    ensures OnlyAdds(files, MakeFolders(files, at, parts))
    ensures FoldersStay(files, MakeFolders(files, at, parts))
  {
    if parts != [] {
      MakeOnlyAdds(files, at, parts[..|parts| - 1]);
    }
  }

  lemma {:induction false} MakeKeepsTree(files: Files, at: Place, parts: seq<string>)
    requires Tree(files)
    ensures Tree(MakeFolders(files, at, parts))
  {
    if parts != [] {
      MakeKeepsTree(files, at, parts[..|parts| - 1]);
    }
  }

  /** A new directory has the name of a component that was not there to be walked. */
  lemma {:induction false} NewFolderNamed(files: Files, at: Place, parts: seq<string>, place: Place)
    requires Tree(files) && place in MakeFolders(files, at, parts) && place !in files
    ensures place != [] && place[|place| - 1] in parts
  {
    var front, last := parts[..|parts| - 1], parts[|parts| - 1];
    MakeKeepsTree(files, at, front);
    assert last in parts && forall part :: part in front ==> part in parts;
    if place in MakeFolders(files, at, front) {
      NewFolderNamed(files, at, front, place);
    }
  }

  function FirstOf(parts: seq<string>, made: nat): seq<string> {
    if made < |parts| then parts[..made] else parts
  }

  /** Making the directories one after the other, the first ones first. */
  lemma {:induction false} MakeAppend(files: Files, at: Place, a: seq<string>, b: seq<string>)
    requires Opened(files, at, a)
    ensures MakeFolders(files, at, a + b) == MakeFolders(files, Land(at, a), b)
  {
    if b == [] {
      assert a + b == a;
      MakeNothing(files, at, a);
    } else {
      var front, last := b[..|b| - 1], b[|b| - 1];
      assert a + b == (a + front) + [last] && (a + b)[..|a + b| - 1] == a + front;
      MakeAppend(files, at, a, front);
      LandAppend(at, a, front);
      LandAppend(at, a, b);
    }
  }

  /** Where the directory is there nothing is made. */
  lemma {:induction false} MakeNothing(files: Files, at: Place, parts: seq<string>)
    requires Opened(files, at, parts)
    ensures MakeFolders(files, at, parts) == files
  {
    if parts != [] {
      MakeNothing(files, at, parts[..|parts| - 1]);
    }
  }

  lemma FirstOfBoth(above: seq<string>, rest: seq<string>, made: nat)
    ensures made <= |above| ==> FirstOf(above + rest, made) == above[..made]
    ensures made > |above| ==> FirstOf(above + rest, made) == above + FirstOf(rest, made - |above|)
  {
  }

  /** Along a path that opens already nothing is made. */
  lemma NothingAbove(files: Files, at: Place, above: seq<string>, made: nat)
    requires Opened(files, at, above) && made <= |above|
    ensures MakeFolders(files, at, above[..made]) == files
  {
    assert above == above[..made] + above[made..];
    OpenPrefix(files, at, above[..made], above[made..]);
    MakeNothing(files, at, above[..made]);
  }

  /** Below it the new directories have the names of the components below. */
  lemma NewBelow(files: Files, at: Place, above: seq<string>, rest: seq<string>, made: nat, place: Place)
    requires Tree(files) && Opened(files, at, above) && place !in files
    requires place in MakeFolders(files, at, FirstOf(above + rest, made))
    ensures place != [] && place[|place| - 1] in rest
  {
    FirstOfBoth(above, rest, made);
    if made <= |above| {
      NothingAbove(files, at, above, made);
    } else {
      var below := FirstOf(rest, made - |above|);
      MakeAppend(files, at, above, below);
      NewFolderNamed(files, Land(at, above), below, place);
      assert forall part :: part in below ==> part in rest;
    }
  }

  /** So a new directory has a name that the path above has not only if it is a component below. */
  lemma NewNamed(files: Files, at: Place, above: seq<string>, rest: seq<string>, made: nat, place: Place, name: string)
    requires Tree(files) && place !in files && (Opened(files, at, above) || name !in above)
    requires place in MakeFolders(files, at, FirstOf(above + rest, made))
    ensures place != [] && (place[|place| - 1] == name ==> name in rest)
  {
    if name in above {
      NewBelow(files, at, above, rest, made, place);
    } else {
      NewFolderNamed(files, at, FirstOf(above + rest, made), place);
      assert forall part :: part in FirstOf(above + rest, made) ==> part in above || part in rest;
    }
  }
}
