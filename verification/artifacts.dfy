/** The filesystem artifact store: a directory for the run, three files a checkpoint, written one after
    the other, and a pointer to the last one. Paths inside files are text. */
module Artifacts {
  import opened Wrappers
  import opened Contracts
  import opened Text
  import opened Splitting
  import opened Paths
  import opened Disks

  // The artifact root as it is written, and the working directory a relative path starts from.
  datatype Root = Root(text: string, cwd: Place)

  // The arguments of one accepted call of write.
  datatype Job = Job(runId: string, version: nat, kind: ArtifactKind, payload: Payload)

  const LATEST_NAME := "latest.json"

  function PayloadName(version: nat): string {
    "checkpoint-" + Decimal(version) + ".payload.json"
  }

  function ManifestName(version: nat): string {
    "checkpoint-" + Decimal(version) + ".manifest.json"
  }

  /** self.root / "weights" / run_id. */
  function RunPath(root: Root, runId: string): Path {
    Joined(Joined(Parse(root.text), "weights"), runId)
  }

  function FilePath(root: Root, runId: string, name: string): Path {
    Path(RunPath(root, runId).slashes, RunPath(root, runId).parts + [name])
  }

  /** Where the operating system starts walking a path. */
  function Anchor(root: Root, path: Path): Place {
    if path.slashes == 0 then root.cwd else []
  }

  function PlaceOf(root: Root, path: Path): Place {
    Land(Anchor(root, path), path.parts)
  }

  /** Where a run keeps its files. */
  function RunDir(root: Root, runId: string): Place {
    PlaceOf(root, RunPath(root, runId))
  }

  function PayloadPlace(root: Root, runId: string, version: nat): Place {
    RunDir(root, runId) + [PayloadName(version)]
  }

  function ManifestPlace(root: Root, runId: string, version: nat): Place {
    RunDir(root, runId) + [ManifestName(version)]
  }

  function LatestPlace(root: Root, runId: string): Place {
    RunDir(root, runId) + [LATEST_NAME]
  }

  function ArtifactOf(root: Root, runId: string, version: nat, kind: ArtifactKind): WeightArtifact {
    WeightArtifact(runId, version, kind,
                   Show(FilePath(root, runId, ManifestName(version))),
                   Show(FilePath(root, runId, PayloadName(version))))
  }

  /** The run's directory exists, and so does every directory its path goes through. */
  predicate Open(files: Files, root: Root, runId: string) {
    var path := RunPath(root, runId);
    Opened(files, Anchor(root, path), path.parts)
  }

  /** What a path leads to. */
  function Lookup(files: Files, root: Root, path: Path): Option<Node> {
    var at := PlaceOf(root, path);
    if !Walkable(files, Anchor(root, path), path.parts) then None
    else if at == [] then Some(Folder)
    else if at in files then Some(files[at])
    else None
  }

  // ---------------------------------------------------------------- the steps of a write

  /** run_dir.mkdir(parents=True, exist_ok=True), as far as the first made components of the path. */
  function Mkdir(files: Files, root: Root, runId: string, made: nat): Files {
    var path := RunPath(root, runId);
    MakeFolders(files, Anchor(root, path), FirstOf(path.parts, made))
  }

  /** The directory is made, then come payload, manifest and pointer. */
  function StagePlace(root: Root, job: Job, stage: nat): Place
    requires 1 <= stage < 4
  {
    match stage
    case 1 => PayloadPlace(root, job.runId, job.version)
    case 2 => ManifestPlace(root, job.runId, job.version)
    case 3 => LatestPlace(root, job.runId)
  }

  function StageNode(root: Root, job: Job, stage: nat): Node
    requires 1 <= stage < 4
  {
    match stage
    case 1 => PayloadFile(job.payload)
    case 2 => ManifestFile(ArtifactOf(root, job.runId, job.version, job.kind))
    case 3 => LatestFile(Show(FilePath(root, job.runId, ManifestName(job.version))))
  }

  function WriteStage(files: Files, root: Root, job: Job, stage: nat): Files
    requires stage < 4
  {
    if stage == 0 then Mkdir(files, root, job.runId, |RunPath(root, job.runId).parts|)
    else files[StagePlace(root, job, stage) := StageNode(root, job, stage)]
  }

  /** The operating system lets the step through: no file is in the way of a directory, and no directory
      in the way of a file. */
  predicate Succeeds(files: Files, root: Root, job: Job, stage: nat)
    requires stage < 4
  {
    if stage == 0 then Open(WriteStage(files, root, job, 0), root, job.runId)
    else Open(files, root, job.runId) && !IsFolder(files, StagePlace(root, job, stage))
  }

  /** The files after the first stages steps of a job. */
  function WriteStages(files: Files, root: Root, job: Job, stages: nat): Files
    requires stages <= 4
  {
    if stages == 0 then files
    else WriteStage(WriteStages(files, root, job, stages - 1), root, job, stages - 1)
  }

  /** Which steps succeed, the ones before them made. */
  function StepsOk(files: Files, root: Root, job: Job): (ok: seq<bool>)
    ensures |ok| == 4
  {
    seq(4, i requires 0 <= i < 4 => Succeeds(WriteStages(files, root, job, i), root, job, i))
  }

  /** How many of the first n hold, up to the first that does not. */
  function Leading(bs: seq<bool>, n: nat): (k: nat)
    requires n <= |bs|
    ensures k <= n && forall i :: 0 <= i < k ==> bs[i]
    ensures k < n ==> !bs[k]
  {
    if n == 0 then 0
    else
      var k := Leading(bs, n - 1);
      if k == n - 1 && bs[k] then n else k
  }

  /** How many of the first steps succeed. */
  function Survived(files: Files, root: Root, job: Job, stages: nat): (k: nat)
    requires stages <= 4
    ensures k <= stages
  {
    Leading(StepsOk(files, root, job), stages)
  }

  predicate WritesThrough(files: Files, root: Root, job: Job, stages: nat)
    requires stages <= 4
  {
    Survived(files, root, job, stages) == stages
  }

  /** What a write leaves that was to raise after stages steps, an interrupted mkdir after made
      components, if nothing made it raise before. */
  function Left(files: Files, root: Root, job: Job, stages: nat, made: nat): Files
    requires stages <= 4
  {
    var k := Survived(files, root, job, stages);
    if k > 0 then WriteStages(files, root, job, k)
    else if stages == 0 then Mkdir(files, root, job.runId, made)
    else WriteStage(files, root, job, 0)
  }

  function ReadManifest(files: Files, root: Root, manifestPath: string): Result<WeightArtifact, Error> {
    match Lookup(files, root, Parse(manifestPath))
    case None => Err(NotFound)
    case Some(Folder) => Err(OsError)
    case Some(ManifestFile(artifact)) => Ok(artifact)
    case Some(_) => Err(ValueError)
  }

  function Latest(files: Files, root: Root, runId: string): Result<WeightArtifact, Error> {
    if runId == "" then Err(InvalidRequest)
    else match Lookup(files, root, FilePath(root, runId, LATEST_NAME))
      case None => Err(NotFound)
      case Some(Folder) => Err(OsError)
      case Some(LatestFile(manifestPath)) => ReadManifest(files, root, manifestPath)
      case Some(_) => Err(ValueError)
  }

  // ---------------------------------------------------------------- which directories coincide

  /** Both ids keep their files in one directory. */
  predicate SameDir(root: Root, a: string, b: string) {
    RunDir(root, a) == RunDir(root, b)
  }

  function Base(root: Root): Place {
    Land(Anchor(root, Parse(root.text)), Components(root.text)) + ["weights"]
  }

  /** Where an id's components count from. */
  function Below(root: Root, id: string): Place {
    if Absolute(id) then [] else Base(root)
  }

  /** No component of the id is "..". */
  predicate NoDots(id: string) {
    ".." !in Components(id)
  }

  lemma RunPathIs(root: Root, id: string)
    ensures RunPath(root, id) ==
      if Absolute(id) then Parse(id)
      else Path(Slashes(root.text), Components(root.text) + (["weights"] + Components(id)))
  {
    PlainIsItself("weights");
    assert Components(root.text) + ["weights"] + Components(id)
        == Components(root.text) + (["weights"] + Components(id));
  }

  /** The path of a run's directory in two parts: what the store was given, and what the id adds. */
  function PartsAbove(root: Root, id: string): seq<string> {
    if Absolute(id) then [] else Components(root.text)
  }

  function PartsBelow(id: string): seq<string> {
    if Absolute(id) then Components(id) else ["weights"] + Components(id)
  }

  function AnchorOf(root: Root, id: string): Place {
    if Absolute(id) then [] else Anchor(root, Parse(root.text))
  }

  lemma RunPathParts(root: Root, id: string)
    ensures RunPath(root, id).parts == PartsAbove(root, id) + PartsBelow(id)
    ensures Anchor(root, RunPath(root, id)) == AnchorOf(root, id)
  {
    RunPathIs(root, id);
    assert [] + Components(id) == Components(id);
  }

  lemma LandBelow(at: Place, above: seq<string>, rest: seq<string>)
    ensures Land(at, above + (["weights"] + rest)) == Land(Land(at, above) + ["weights"], rest)
  {
    assert above + (["weights"] + rest) == (above + ["weights"]) + rest;
    LandSnoc(at, above, "weights");
    LandAppend(at, above + ["weights"], rest);
  }

  /** The directory of an id: its components taken from below the root, or, for an absolute id, from the
      top, each ".." taking the component before it away. */
  lemma RunDirIs(root: Root, id: string)
    ensures RunDir(root, id) == Land(Below(root, id), Components(id))
  {
    RunPathIs(root, id);
    if !Absolute(id) {
      LandBelow(Anchor(root, Parse(root.text)), Components(root.text), Components(id));
    }
  }

  /** Two ids share their directory exactly when their components lead to one place. Without ".." that is
      when the components agree; one id that is absolute may name the directory another reaches below
      the root. */
  lemma SameDirIff(root: Root, a: string, b: string)
    ensures SameDir(root, a, b) <==> Land(Below(root, a), Components(a)) == Land(Below(root, b), Components(b))
    ensures NoDots(a) && NoDots(b) && Absolute(a) == Absolute(b) ==>
      (SameDir(root, a, b) <==> Components(a) == Components(b))
    ensures NoDots(a) && NoDots(b) && Absolute(a) && !Absolute(b) ==>
      (SameDir(root, a, b) <==> Components(a) == Base(root) + Components(b))
  {
    RunDirIs(root, a);
    RunDirIs(root, b);
    if NoDots(a) && NoDots(b) {
      var from, from' := Below(root, a), Below(root, b);
      LandDown(from, Components(a));
      LandDown(from', Components(b));
      assert (from + Components(a))[|from|..] == Components(a) && (from' + Components(b))[|from'|..] == Components(b);
    }
  }

  /** Among ids of one plain component different ids have different directories. Another relative id
      reaches the directory of one exactly when its components, ".." resolved, lead to that component
      below the root. */
  lemma PlainDirs(root: Root, a: string, b: string)
    requires Plain(a)
    ensures NoDots(a) && RunDir(root, a) == Base(root) + [a]
    ensures Plain(b) ==> (SameDir(root, a, b) <==> a == b)
    ensures !Absolute(b) ==> (SameDir(root, a, b) <==> Land(Base(root), Components(b)) == Base(root) + [a])
    ensures !Absolute(b) && NoDots(b) ==> (SameDir(root, a, b) <==> Components(b) == [a])
  {
    PlainIsItself(a);
    RunDirIs(root, a);
    LandDown(Base(root), [a]);
    SameDirIff(root, a, b);
    if Plain(b) { PlainIsItself(b); }
  }

  /** A relative id with a slash behind it is another id with the same path. */
  lemma TrailingSlashIsAlias(root: Root, id: string)
    requires id != "" && !Absolute(id)
    ensures id + "/" != id && RunPath(root, id + "/") == RunPath(root, id)
  {
    SlashSeparates(id, "");
    assert Join(id, '/', "") == id + "/";
    assert Split("", '/') == [""] && Kept([""]) == Kept([]);
    RunPathIs(root, id);
    RunPathIs(root, id + "/");
  }

  function WayRound(id: string): string {
    "../weights/" + id
  }

  lemma TwoParts(a: string, b: string)
    requires IsComponent(a)
    ensures Components(a + "/" + b) == [a] + Components(b)
  {
    SlashSeparates(a, b);
    assert Join(a, '/', b) == a + "/" + b;
    SplitNone(a, '/');
    KeepsComponents([a]);
  }

  lemma WayRoundParts(id: string)
    requires Plain(id)
    ensures !Absolute(WayRound(id)) && Components(WayRound(id)) == ["..", "weights", id]
  {
    assert IsComponent("..") && IsComponent("weights");
    TwoParts("weights", id);
    TwoParts("..", "weights/" + id);
    assert ".." + "/" + ("weights/" + id) == WayRound(id) && "weights" + "/" + id == "weights/" + id;
    PlainIsItself(id);
    assert WayRound(id)[0] == '.';
  }

  lemma LandRound(at: Place, id: string)
    requires id != ".."
    ensures Land(at + ["weights"], ["..", "weights", id]) == at + ["weights"] + [id]
  {
    var base := at + ["weights"];
    assert ["..", "weights", id] == [] + [".."] + ["weights"] + [id];
    LandSnoc(base, [], "..");
    LandSnoc(base, [] + [".."], "weights");
    LandSnoc(base, [] + [".."] + ["weights"], id);
  }

  /** The way out of the directory of weights and in again leads to the directory of a plain id. */
  lemma WayRoundSharesDir(root: Root, id: string)
    requires Plain(id)
    ensures WayRound(id) != id && SameDir(root, WayRound(id), id)
  {
    WayRoundParts(id);
    LandRound(Land(Anchor(root, Parse(root.text)), Components(root.text)), id);
    PlainDirs(root, id, WayRound(id));
  }

  lemma RunPathIsNormal(root: Root, runId: string)
    ensures Normal(RunPath(root, runId))
  {
    ParseIsNormal(root.text);
    JoinedIsNormal(Parse(root.text), "weights");
    JoinedIsNormal(Joined(Parse(root.text), "weights"), runId);
  }

  lemma SuffixClash(a: string, b: string, x: string, y: string, back: nat)
    requires back < |a| && back < |b|
    requires a[|a| - 1 - back] != b[|b| - 1 - back]
    ensures x + a != y + b
  {
    var s, t := x + a, y + b;
    assert s[|s| - 1 - back] == a[|a| - 1 - back];
    assert t[|t| - 1 - back] == b[|b| - 1 - back];
  }

  lemma NumberedNames(v: nat, w: nat, suffix: string)
    ensures "checkpoint-" + Decimal(v) + suffix == "checkpoint-" + Decimal(w) + suffix <==> v == w
  {
    if "checkpoint-" + Decimal(v) + suffix == "checkpoint-" + Decimal(w) + suffix {
      SameEnds("checkpoint-" + Decimal(v), suffix, "checkpoint-" + Decimal(w), suffix);
      SameEnds("checkpoint-", Decimal(v), "checkpoint-", Decimal(w));
      DecimalInjective(v, w);
    }
  }

  /** File names tell the kind of a file and its version. */
  lemma NamesTell(v: nat, w: nat)
    ensures PayloadName(v) == PayloadName(w) <==> v == w
    ensures ManifestName(v) == ManifestName(w) <==> v == w
    ensures PayloadName(v) != ManifestName(w) && PayloadName(v) != LATEST_NAME && ManifestName(w) != LATEST_NAME
  {
    NumberedNames(v, w, ".payload.json");
    NumberedNames(v, w, ".manifest.json");
    SuffixClash(".payload.json", ".manifest.json", "checkpoint-" + Decimal(v), "checkpoint-" + Decimal(w), 5);
    SuffixClash(".payload.json", "latest.json", "checkpoint-" + Decimal(v), "", 5);
    SuffixClash(".manifest.json", "latest.json", "checkpoint-" + Decimal(w), "", 10);
    assert "" + "latest.json" == LATEST_NAME;
  }

  lemma InInjective(d: Place, name: string, d': Place, name': string)
    ensures d + [name] == d' + [name'] <==> d == d' && name == name'
  {
    if d + [name] == d' + [name'] {
      assert (d + [name])[..|d|] == d && (d' + [name'])[..|d'|] == d';
      assert (d + [name])[|d|] == name && (d' + [name'])[|d'|] == name';
    }
  }

  /** Files of a checkpoint coincide exactly when their directories and versions do. */
  lemma PlacesCoincideIff(root: Root, r: string, v: nat, r': string, v': nat)
    ensures ManifestPlace(root, r, v) == ManifestPlace(root, r', v') <==> SameDir(root, r, r') && v == v'
    ensures PayloadPlace(root, r, v) == PayloadPlace(root, r', v') <==> SameDir(root, r, r') && v == v'
    ensures LatestPlace(root, r) == LatestPlace(root, r') <==> SameDir(root, r, r')
    ensures PayloadPlace(root, r, v) != ManifestPlace(root, r', v')
    ensures PayloadPlace(root, r, v) != LatestPlace(root, r')
    ensures ManifestPlace(root, r, v) != LatestPlace(root, r')
  {
    NamesTell(v, v');
    NamesTell(v', v);
    var d, d' := RunDir(root, r), RunDir(root, r');
    InInjective(d, ManifestName(v), d', ManifestName(v'));
    InInjective(d, PayloadName(v), d', PayloadName(v'));
    InInjective(d, LATEST_NAME, d', LATEST_NAME);
    InInjective(d, PayloadName(v), d', ManifestName(v'));
    InInjective(d, PayloadName(v), d', LATEST_NAME);
    InInjective(d, ManifestName(v), d', LATEST_NAME);
  }

  /** What the path of a file of an id's directory leads to. */
  lemma LookupFile(files: Files, root: Root, id: string, name: string)
    requires name != ".."
    ensures var place := RunDir(root, id) + [name];
      && PlaceOf(root, FilePath(root, id, name)) == place
      && Lookup(files, root, FilePath(root, id, name)) ==
           if Open(files, root, id) && place in files then Some(files[place]) else None
  {
    var path := RunPath(root, id);
    LandSnoc(Anchor(root, path), path.parts, name);
    WalkSnoc(files, Anchor(root, path), path.parts, name);
  }

  lemma FileReadsBack(root: Root, r: string, name: string)
    requires IsComponent(name)
    ensures Parse(Show(FilePath(root, r, name))) == FilePath(root, r, name)
  {
    RunPathIsNormal(root, r);
    NormalSnoc(RunPath(root, r), name);
    ParseShow(FilePath(root, r, name));
  }

  lemma NormalSnoc(path: Path, name: string)
    requires Normal(path) && IsComponent(name)
    ensures Normal(Path(path.slashes, path.parts + [name]))
  {
  }

  lemma NameIsComponent(v: nat, suffix: string)
    requires Without(suffix, '/')
    ensures IsComponent("checkpoint-" + Decimal(v) + suffix)
    ensures "checkpoint-" + Decimal(v) + suffix != ".."
  {
    DigitsAreFree(v, '/');
    var name := "checkpoint-" + Decimal(v) + suffix;
    assert name[0] == 'c';
    forall i | 0 <= i < |name| ensures name[i] != '/' {
      if i < 11 { assert name[i] == "checkpoint-"[i]; }
      else if i < 11 + |Decimal(v)| { assert name[i] == Decimal(v)[i - 11]; }
      else { assert name[i] == suffix[i - 11 - |Decimal(v)|]; }
    }
  }

  lemma StoreNames(v: nat)
    ensures IsComponent(PayloadName(v)) && PayloadName(v) != ".."
    ensures IsComponent(ManifestName(v)) && ManifestName(v) != ".."
  {
    NameIsComponent(v, ".payload.json");
    NameIsComponent(v, ".manifest.json");
  }

  /** The texts a write puts into manifest and pointer lead to the files it wrote. */
  lemma TextsLead(files: Files, root: Root, r: string, v: nat)
    ensures Lookup(files, root, Parse(Show(FilePath(root, r, ManifestName(v))))) ==
      if Open(files, root, r) && ManifestPlace(root, r, v) in files then Some(files[ManifestPlace(root, r, v)])
      else None
    ensures Lookup(files, root, Parse(Show(FilePath(root, r, PayloadName(v))))) ==
      if Open(files, root, r) && PayloadPlace(root, r, v) in files then Some(files[PayloadPlace(root, r, v)])
      else None
  {
    StoreNames(v);
    FileReadsBack(root, r, ManifestName(v));
    FileReadsBack(root, r, PayloadName(v));
    LookupFile(files, root, r, ManifestName(v));
    LookupFile(files, root, r, PayloadName(v));
  }

  // ---------------------------------------------------------------- what every step keeps

  ghost predicate HasPayload(files: Files, root: Root, runId: string, version: nat) {
    var place := PayloadPlace(root, runId, version);
    place in files && files[place].PayloadFile?
  }

  /** The manifest of a version describes itself, for this id or another of the same directory, by paths
      that can be walked. */
  ghost predicate HasManifest(files: Files, root: Root, runId: string, version: nat) {
    var place := ManifestPlace(root, runId, version);
    && place in files
    && files[place].ManifestFile?
    && SameDir(root, files[place].artifact.runId, runId)
    && Open(files, root, files[place].artifact.runId)
    && files[place].artifact == ArtifactOf(root, files[place].artifact.runId, version, files[place].artifact.kind)
    && HasPayload(files, root, runId, version)
  }

  /** A text is a path to this place, every directory on the way existing. */
  ghost predicate Leads(files: Files, root: Root, text: string, place: Place) {
    var path := Parse(text);
    PlaceOf(root, path) == place && Walkable(files, Anchor(root, path), path.parts)
  }

  ghost predicate PointsTo(files: Files, root: Root, runId: string, version: nat) {
    var place := LatestPlace(root, runId);
    && place in files
    && files[place].LatestFile?
    && Leads(files, root, files[place].manifestPath, ManifestPlace(root, runId, version))
    && HasManifest(files, root, runId, version)
  }

  /** The root's path opens already, or it has neither ".." nor the name of a store file in it. */
  ghost predicate RootSettled(files: Files, root: Root) {
    || Opened(files, Anchor(root, Parse(root.text)), Components(root.text))
    || (".." !in Components(root.text) && LATEST_NAME !in Components(root.text))
  }

  /** A file where a manifest belongs describes itself and has its payload; a file where a pointer
      belongs leads to such a manifest. */
  ghost predicate WellFormed(files: Files, root: Root) {
    && Tree(files) && RootSettled(files, root)
    && (forall r, v :: ManifestPlace(root, r, v) in files ==>
          files[ManifestPlace(root, r, v)].Folder? || HasManifest(files, root, r, v))
    && (forall r :: LatestPlace(root, r) in files ==>
          files[LatestPlace(root, r)].Folder? || exists v :: PointsTo(files, root, r, v))
  }

  ghost predicate StageReady(files: Files, root: Root, job: Job, stage: nat) {
    && (stage >= 1 ==> Open(files, root, job.runId))
    && (stage >= 2 ==> HasPayload(files, root, job.runId, job.version))
    && (stage >= 3 ==> HasManifest(files, root, job.runId, job.version))
  }

  /** Without ".." in an id its directory opens once it is there. */
  lemma OpenIfThere(files: Files, root: Root, id: string)
    requires Tree(files) && RootSettled(files, root) && NoDots(id) && IsFolder(files, RunDir(root, id))
    ensures Open(files, root, id)
  {
    RunPathParts(root, id);
    RestOpens(files, AnchorOf(root, id), PartsAbove(root, id), PartsBelow(id));
  }

  lemma RestOpens(files: Files, at: Place, above: seq<string>, rest: seq<string>)
    requires Tree(files) && ".." !in rest && IsFolder(files, Land(at, above + rest))
    requires Opened(files, at, above) || ".." !in above
    ensures Opened(files, at, above + rest)
  {
    if ".." in above {
      OpensBelow(files, at, above, rest);
    } else {
      LandDown(at, above + rest);
      TreeOpens(files, at, above + rest);
    }
  }

  lemma UpFromDir(root: Root, id: string, name: string)
    ensures Up(RunDir(root, id) + [name]) == RunDir(root, id)
  {
    assert (RunDir(root, id) + [name])[..|RunDir(root, id)|] == RunDir(root, id);
  }

  lemma OpenStays(before: Files, after: Files, root: Root, id: string)
    requires FoldersStay(before, after) && Open(before, root, id)
    ensures Open(after, root, id)
  {
    var path := RunPath(root, id);
    StaysWalkable(before, after, Anchor(root, path), path.parts);
  }

  lemma LeadsStays(before: Files, after: Files, root: Root, text: string, place: Place)
    requires FoldersStay(before, after) && Leads(before, root, text, place)
    ensures Leads(after, root, text, place)
  {
    StaysWalkable(before, after, Anchor(root, Parse(text)), Parse(text).parts);
  }

  lemma SettledStays(before: Files, after: Files, root: Root)
    requires FoldersStay(before, after) && RootSettled(before, root)
    ensures RootSettled(after, root)
  {
    var anchor := Anchor(root, Parse(root.text));
    if Opened(before, anchor, Components(root.text)) {
      StaysWalkable(before, after, anchor, Components(root.text));
    }
  }

  // ---------------------------------------------------------------- making directories

  lemma MkdirAdds(files: Files, root: Root, runId: string, made: nat)
    requires Tree(files)
    ensures var after := Mkdir(files, root, runId, made);
      OnlyAdds(files, after) && FoldersStay(files, after) && Tree(after)
  {
    var path := RunPath(root, runId);
    var parts := FirstOf(path.parts, made);
    MakeOnlyAdds(files, Anchor(root, path), parts);
    MakeKeepsTree(files, Anchor(root, path), parts);
  }

  lemma AddsKeepFacts(files: Files, after: Files, root: Root, r: string, v: nat)
    requires OnlyAdds(files, after) && FoldersStay(files, after)
    ensures HasPayload(files, root, r, v) ==> HasPayload(after, root, r, v)
    ensures HasManifest(files, root, r, v) ==> HasManifest(after, root, r, v)
    ensures PointsTo(files, root, r, v) ==> PointsTo(after, root, r, v)
  {
    if HasManifest(files, root, r, v) {
      OpenStays(files, after, root, files[ManifestPlace(root, r, v)].artifact.runId);
    }
    if PointsTo(files, root, r, v) {
      LeadsStays(files, after, root, files[LatestPlace(root, r)].manifestPath, ManifestPlace(root, r, v));
    }
  }

  lemma AddsKeepPointers(files: Files, after: Files, root: Root, r: string)
    requires WellFormed(files, root) && OnlyAdds(files, after) && FoldersStay(files, after)
    requires LatestPlace(root, r) in after && !after[LatestPlace(root, r)].Folder?
    ensures exists v :: PointsTo(after, root, r, v)
  {
    var v :| PointsTo(files, root, r, v);
    AddsKeepFacts(files, after, root, r, v);
  }

  lemma AddsKeepWellFormed(files: Files, after: Files, root: Root)
    requires WellFormed(files, root) && OnlyAdds(files, after) && FoldersStay(files, after) && Tree(after)
    ensures WellFormed(after, root)
  {
    SettledStays(files, after, root);
    forall r, v | ManifestPlace(root, r, v) in after && !after[ManifestPlace(root, r, v)].Folder?
      ensures HasManifest(after, root, r, v)
    {
      AddsKeepFacts(files, after, root, r, v);
    }
    forall r | LatestPlace(root, r) in after && !after[LatestPlace(root, r)].Folder?
      ensures exists v :: PointsTo(after, root, r, v)
    {
      AddsKeepPointers(files, after, root, r);
    }
  }

  /** A directory that mkdir adds has a name from below the root, or from a root without store names. */
  lemma NewName(files: Files, root: Root, runId: string, made: nat, place: Place)
    requires Tree(files) && RootSettled(files, root)
    requires place in Mkdir(files, root, runId, made) && place !in files
    ensures place != [] && (place[|place| - 1] == LATEST_NAME ==> LATEST_NAME in Components(runId))
  {
    RunPathParts(root, runId);
    NewNamed(files, AnchorOf(root, runId), PartsAbove(root, runId), PartsBelow(runId), made, place, LATEST_NAME);
  }

  /** It is not where an id's pointer belongs, unless a component of the id it is made for is named so. */
  lemma NoFolderForPointer(files: Files, root: Root, runId: string, made: nat, other: string)
    requires Tree(files) && RootSettled(files, root) && LATEST_NAME !in Components(runId)
    ensures LatestPlace(root, other) in Mkdir(files, root, runId, made) ==> LatestPlace(root, other) in files
  {
    var place := LatestPlace(root, other);
    if place in Mkdir(files, root, runId, made) && place !in files {
      NewName(files, root, runId, made, place);
      assert false;
    }
  }

  // ---------------------------------------------------------------- writing files

  lemma StageKeepsTree(files: Files, root: Root, job: Job, stage: nat)
    requires 1 <= stage < 4 && Tree(files) && Succeeds(files, root, job, stage)
    ensures var after := WriteStage(files, root, job, stage);
      Tree(after) && FoldersStay(files, after) && FoldersStay(after, files)
  {
    UpFromDir(root, job.runId, PayloadName(job.version));
    UpFromDir(root, job.runId, ManifestName(job.version));
    UpFromDir(root, job.runId, LATEST_NAME);
    PutKeepsTree(files, StagePlace(root, job, stage), StageNode(root, job, stage));
  }

  /** The text of a path through directories that exist leads where the path does. */
  lemma OpenLeads(files: Files, root: Root, r: string, v: nat)
    requires Open(files, root, r)
    ensures Leads(files, root, Show(FilePath(root, r, ManifestName(v))), ManifestPlace(root, r, v))
  {
    StoreNames(v);
    FileReadsBack(root, r, ManifestName(v));
    LookupFile(files, root, r, ManifestName(v));
    var path := RunPath(root, r);
    WalkSnoc(files, Anchor(root, path), path.parts, ManifestName(v));
  }

  lemma StageElsewhere(files: Files, root: Root, job: Job, stage: nat, place: Place)
    requires 1 <= stage < 4 && place != StagePlace(root, job, stage)
    ensures place in WriteStage(files, root, job, stage) <==> place in files
    ensures place in files ==> WriteStage(files, root, job, stage)[place] == files[place]
  {
  }

  lemma WriteKeepsPayload(files: Files, root: Root, job: Job, stage: nat, r: string, v: nat)
    requires 1 <= stage < 4 && HasPayload(files, root, r, v)
    ensures HasPayload(WriteStage(files, root, job, stage), root, r, v)
  {
    if stage == 1 {
      if PayloadPlace(root, r, v) != PayloadPlace(root, job.runId, job.version) {
        StageElsewhere(files, root, job, stage, PayloadPlace(root, r, v));
      }
    } else {
      PlacesCoincideIff(root, r, v, job.runId, job.version);
      StageElsewhere(files, root, job, stage, PayloadPlace(root, r, v));
    }
  }

  lemma WriteKeepsManifest(files: Files, root: Root, job: Job, stage: nat, r: string, v: nat)
    requires 1 <= stage < 4 && Tree(files) && Succeeds(files, root, job, stage) && HasManifest(files, root, r, v)
    ensures HasManifest(WriteStage(files, root, job, stage), root, r, v)
  {
    var after := WriteStage(files, root, job, stage);
    StageKeepsTree(files, root, job, stage);
    WriteKeepsPayload(files, root, job, stage, r, v);
    PlacesCoincideIff(root, r, v, job.runId, job.version);
    PlacesCoincideIff(root, job.runId, job.version, r, v);
    if ManifestPlace(root, r, v) != StagePlace(root, job, stage) {
      StageElsewhere(files, root, job, stage, ManifestPlace(root, r, v));
      OpenStays(files, after, root, files[ManifestPlace(root, r, v)].artifact.runId);
    } else {
      OpenStays(files, after, root, job.runId);
    }
  }

  lemma NotThatPointer(root: Root, job: Job, stage: nat, r: string)
    requires 1 <= stage < 4 && (stage < 3 || !SameDir(root, r, job.runId))
    ensures LatestPlace(root, r) != StagePlace(root, job, stage)
  {
    PlacesCoincideIff(root, job.runId, job.version, r, 0);
  }

  lemma WriteKeepsPointer(files: Files, root: Root, job: Job, stage: nat, r: string, v: nat)
    requires 1 <= stage < 4 && Tree(files) && Succeeds(files, root, job, stage) && PointsTo(files, root, r, v)
    requires stage < 3 || !SameDir(root, r, job.runId)
    ensures PointsTo(WriteStage(files, root, job, stage), root, r, v)
  {
    var after := WriteStage(files, root, job, stage);
    StageKeepsTree(files, root, job, stage);
    WriteKeepsManifest(files, root, job, stage, r, v);
    NotThatPointer(root, job, stage, r);
    StageElsewhere(files, root, job, stage, LatestPlace(root, r));
    LeadsStays(files, after, root, files[LatestPlace(root, r)].manifestPath, ManifestPlace(root, r, v));
  }

  /** What a step does not take away. */
  lemma StageKeepsFacts(files: Files, root: Root, job: Job, stage: nat, r: string, v: nat)
    requires stage < 4 && Tree(files) && Succeeds(files, root, job, stage)
    ensures var after := WriteStage(files, root, job, stage);
      && FoldersStay(files, after) && Tree(after)
      && (HasPayload(files, root, r, v) ==> HasPayload(after, root, r, v))
      && (HasManifest(files, root, r, v) ==> HasManifest(after, root, r, v))
      && (PointsTo(files, root, r, v) && (stage < 3 || !SameDir(root, r, job.runId)) ==> PointsTo(after, root, r, v))
  {
    var after := WriteStage(files, root, job, stage);
    if stage == 0 {
      MkdirAdds(files, root, job.runId, |RunPath(root, job.runId).parts|);
      AddsKeepFacts(files, after, root, r, v);
    } else {
      StageKeepsTree(files, root, job, stage);
      if HasPayload(files, root, r, v) { WriteKeepsPayload(files, root, job, stage, r, v); }
      if HasManifest(files, root, r, v) { WriteKeepsManifest(files, root, job, stage, r, v); }
      if PointsTo(files, root, r, v) && (stage < 3 || !SameDir(root, r, job.runId)) {
        WriteKeepsPointer(files, root, job, stage, r, v);
      }
    }
  }

  lemma ManifestEstablished(files: Files, root: Root, job: Job)
    requires Tree(files) && Succeeds(files, root, job, 2) && HasPayload(files, root, job.runId, job.version)
    ensures HasManifest(WriteStage(files, root, job, 2), root, job.runId, job.version)
  {
    StageKeepsTree(files, root, job, 2);
    WriteKeepsPayload(files, root, job, 2, job.runId, job.version);
    OpenStays(files, WriteStage(files, root, job, 2), root, job.runId);
  }

  lemma PointerEstablished(files: Files, root: Root, job: Job)
    requires Tree(files) && Succeeds(files, root, job, 3) && HasManifest(files, root, job.runId, job.version)
    ensures PointsTo(WriteStage(files, root, job, 3), root, job.runId, job.version)
  {
    StageKeepsTree(files, root, job, 3);
    WriteKeepsManifest(files, root, job, 3, job.runId, job.version);
    OpenStays(files, WriteStage(files, root, job, 3), root, job.runId);
    OpenLeads(WriteStage(files, root, job, 3), root, job.runId, job.version);
  }

  lemma StageEstablishes(files: Files, root: Root, job: Job, stage: nat)
    requires stage < 4 && Tree(files) && Succeeds(files, root, job, stage) && StageReady(files, root, job, stage)
    ensures var after := WriteStage(files, root, job, stage);
        && (stage < 3 ==> StageReady(after, root, job, stage + 1))
        && (stage == 3 ==> PointsTo(after, root, job.runId, job.version))
  {
    StageKeepsFacts(files, root, job, stage, job.runId, job.version);
    if stage >= 1 { OpenStays(files, WriteStage(files, root, job, stage), root, job.runId); }
    if stage == 2 { ManifestEstablished(files, root, job); }
    if stage == 3 { PointerEstablished(files, root, job); }
  }

  lemma StageKeepsManifests(files: Files, root: Root, job: Job, stage: nat, r: string, v: nat)
    requires 1 <= stage < 4 && WellFormed(files, root) && StageReady(files, root, job, stage)
    requires Succeeds(files, root, job, stage) && ManifestPlace(root, r, v) in WriteStage(files, root, job, stage)
    requires !WriteStage(files, root, job, stage)[ManifestPlace(root, r, v)].Folder?
    ensures HasManifest(WriteStage(files, root, job, stage), root, r, v)
  {
    PlacesCoincideIff(root, r, v, job.runId, job.version);
    PlacesCoincideIff(root, job.runId, job.version, r, v);
    if ManifestPlace(root, r, v) == StagePlace(root, job, stage) {
      ManifestEstablished(files, root, job);
    } else {
      StageElsewhere(files, root, job, stage, ManifestPlace(root, r, v));
      WriteKeepsManifest(files, root, job, stage, r, v);
    }
  }

  lemma StageKeepsPointers(files: Files, root: Root, job: Job, stage: nat, r: string)
    requires 1 <= stage < 4 && WellFormed(files, root) && StageReady(files, root, job, stage)
    requires Succeeds(files, root, job, stage) && LatestPlace(root, r) in WriteStage(files, root, job, stage)
    requires !WriteStage(files, root, job, stage)[LatestPlace(root, r)].Folder?
    ensures exists v :: PointsTo(WriteStage(files, root, job, stage), root, r, v)
  {
    PlacesCoincideIff(root, r, 0, job.runId, 0);
    PlacesCoincideIff(root, job.runId, job.version, r, 0);
    if LatestPlace(root, r) == StagePlace(root, job, stage) {
      PointerEstablished(files, root, job);
      assert PointsTo(WriteStage(files, root, job, stage), root, r, job.version);
    } else {
      StageElsewhere(files, root, job, stage, LatestPlace(root, r));
      var v :| PointsTo(files, root, r, v);
      WriteKeepsPointer(files, root, job, stage, r, v);
    }
  }

  /** Every step of a write, made in its turn, leaves a well-formed store. */
  lemma StageKeepsWellFormed(files: Files, root: Root, job: Job, stage: nat)
    requires stage < 4 && WellFormed(files, root) && StageReady(files, root, job, stage)
    requires Succeeds(files, root, job, stage)
    ensures WellFormed(WriteStage(files, root, job, stage), root)
  {
    var after := WriteStage(files, root, job, stage);
    if stage == 0 {
      MkdirKeepsWellFormed(files, root, job.runId, |RunPath(root, job.runId).parts|);
    } else {
      StageKeepsTree(files, root, job, stage);
      SettledStays(files, after, root);
      forall r, v | ManifestPlace(root, r, v) in after && !after[ManifestPlace(root, r, v)].Folder?
        ensures HasManifest(after, root, r, v)
      {
        StageKeepsManifests(files, root, job, stage, r, v);
      }
      forall r | LatestPlace(root, r) in after && !after[LatestPlace(root, r)].Folder?
        ensures exists v :: PointsTo(after, root, r, v)
      {
        StageKeepsPointers(files, root, job, stage, r);
      }
    }
  }

  /** So does a mkdir that is interrupted or finds a file in its way. */
  lemma MkdirKeepsWellFormed(files: Files, root: Root, runId: string, made: nat)
    requires WellFormed(files, root)
    ensures WellFormed(Mkdir(files, root, runId, made), root)
  {
    MkdirAdds(files, root, runId, made);
    AddsKeepWellFormed(files, Mkdir(files, root, runId, made), root);
  }

  // ---------------------------------------------------------------- what latest finds

  lemma PointerIsLatest(files: Files, root: Root, runId: string, version: nat)
    requires PointsTo(files, root, runId, version) && Open(files, root, runId) && runId != ""
    ensures Latest(files, root, runId).Ok?
    ensures var a := Latest(files, root, runId).value;
      && SameDir(root, a.runId, runId) && Open(files, root, a.runId) && a == ArtifactOf(root, a.runId, version, a.kind)
      && files[ManifestPlace(root, runId, version)] == ManifestFile(a)
  {
    PointerIsRead(files, root, runId);
    ManifestIsRead(files, root, files[LatestPlace(root, runId)].manifestPath, ManifestPlace(root, runId, version));
  }

  lemma ManifestIsRead(files: Files, root: Root, text: string, place: Place)
    requires Leads(files, root, text, place) && place != [] && place in files && files[place].ManifestFile?
    ensures ReadManifest(files, root, text) == Ok(files[place].artifact)
  {
    LeadsThere(files, root, text, place);
  }

  lemma LatestReads(files: Files, root: Root, runId: string)
    requires runId != "" && Lookup(files, root, FilePath(root, runId, LATEST_NAME)).Some?
    requires Lookup(files, root, FilePath(root, runId, LATEST_NAME)).value.LatestFile?
    ensures Latest(files, root, runId)
         == ReadManifest(files, root, Lookup(files, root, FilePath(root, runId, LATEST_NAME)).value.manifestPath)
  {
  }

  lemma PointerIsRead(files: Files, root: Root, runId: string)
    requires runId != "" && Open(files, root, runId)
    requires LatestPlace(root, runId) in files && files[LatestPlace(root, runId)].LatestFile?
    ensures Latest(files, root, runId) == ReadManifest(files, root, files[LatestPlace(root, runId)].manifestPath)
  {
    LookupFile(files, root, runId, LATEST_NAME);
    LatestReads(files, root, runId);
  }

  lemma LeadsThere(files: Files, root: Root, text: string, place: Place)
    requires Leads(files, root, text, place) && place != [] && place in files
    ensures Lookup(files, root, Parse(text)) == Some(files[place])
  {
  }

  /** latest finds nothing exactly when the pointer's path leads to nothing, raises exactly when a directory
      is there, and otherwise follows a pointer. */
  lemma LatestCases(files: Files, root: Root, runId: string)
    requires WellFormed(files, root) && runId != ""
    ensures var pointer := Lookup(files, root, FilePath(root, runId, LATEST_NAME));
      match Latest(files, root, runId)
      case Err(e) => (e == NotFound && pointer == None) || (e == OsError && pointer == Some(Folder))
      case Ok(_) => Open(files, root, runId) && exists v :: PointsTo(files, root, runId, v)
  {
    LookupFile(files, root, runId, LATEST_NAME);
    if Open(files, root, runId) && LatestPlace(root, runId) in files && !files[LatestPlace(root, runId)].Folder? {
      var v :| PointsTo(files, root, runId, v);
      PointerIsLatest(files, root, runId, v);
    }
  }

  /** Without ".." in the id, the pointer's path leads to whatever is in the pointer's place. */
  lemma PointerIfThere(files: Files, root: Root, runId: string)
    requires Tree(files) && RootSettled(files, root) && NoDots(runId)
    ensures Lookup(files, root, FilePath(root, runId, LATEST_NAME)) ==
      if LatestPlace(root, runId) in files then Some(files[LatestPlace(root, runId)]) else None
  {
    LookupFile(files, root, runId, LATEST_NAME);
    if LatestPlace(root, runId) in files {
      UpFromDir(root, runId, LATEST_NAME);
      OpenIfThere(files, root, runId);
    }
  }

  // ---------------------------------------------------------------- what a write leaves alone

  lemma SamePointedLatest(before: Files, after: Files, root: Root, id: string, v: nat)
    requires id != "" && Open(before, root, id) && PointsTo(before, root, id, v)
    requires Open(after, root, id) && PointsTo(after, root, id, v)
    requires after[ManifestPlace(root, id, v)] == before[ManifestPlace(root, id, v)]
    ensures Latest(after, root, id) == Latest(before, root, id)
  {
    PointerIsLatest(before, root, id, v);
    PointerIsLatest(after, root, id, v);
  }

  lemma PointedStays(files: Files, root: Root, runId: string, made: nat, other: string)
    requires WellFormed(files, root) && Latest(files, root, other).Ok?
    ensures Latest(Mkdir(files, root, runId, made), root, other) == Latest(files, root, other)
  {
    var after := Mkdir(files, root, runId, made);
    MkdirAdds(files, root, runId, made);
    LatestCases(files, root, other);
    var v :| PointsTo(files, root, other, v);
    AddsKeepFacts(files, after, root, other, v);
    OpenStays(files, after, root, other);
    SamePointedLatest(files, after, root, other, v);
  }

  lemma RaisingStays(files: Files, root: Root, runId: string, made: nat, other: string)
    requires WellFormed(files, root) && Latest(files, root, other) == Err(OsError)
    ensures Latest(Mkdir(files, root, runId, made), root, other) == Err(OsError)
  {
    var after := Mkdir(files, root, runId, made);
    MkdirAdds(files, root, runId, made);
    LatestCases(files, root, other);
    LookupFile(files, root, other, LATEST_NAME);
    OpenStays(files, after, root, other);
    LookupFile(after, root, other, LATEST_NAME);
  }

  lemma NothingStays(files: Files, root: Root, runId: string, made: nat, other: string)
    requires WellFormed(files, root) && Latest(files, root, other) == Err(NotFound)
    requires NoDots(other) && LATEST_NAME !in Components(runId)
    ensures Latest(Mkdir(files, root, runId, made), root, other) == Err(NotFound)
  {
    MkdirAdds(files, root, runId, made);
    LatestCases(files, root, other);
    PointerIfThere(files, root, other);
    NoFolderForPointer(files, root, runId, made, other);
    LookupFile(Mkdir(files, root, runId, made), root, other, LATEST_NAME);
  }

  /** Making a directory changes what latest finds for an id at most from nothing, and only if a component
      of the id is "..", which may become walkable, or a component of the directory is named like the
      pointer. */
  lemma MkdirKeepsLatest(files: Files, root: Root, runId: string, made: nat, other: string)
    requires WellFormed(files, root)
    ensures Latest(Mkdir(files, root, runId, made), root, other) == Latest(files, root, other) ||
      (Latest(files, root, other) == Err(NotFound) && (!NoDots(other) || LATEST_NAME in Components(runId)))
  {
    if other != "" {
      LatestCases(files, root, other);
      if Latest(files, root, other).Ok? {
        PointedStays(files, root, runId, made, other);
      } else if Latest(files, root, other) == Err(OsError) {
        RaisingStays(files, root, runId, made, other);
      } else if NoDots(other) && LATEST_NAME !in Components(runId) {
        NothingStays(files, root, runId, made, other);
      }
    }
  }

  lemma NotThatManifest(root: Root, job: Job, stage: nat, r: string, v: nat)
    requires 1 <= stage < 4 && !SameDir(root, r, job.runId)
    ensures ManifestPlace(root, r, v) != StagePlace(root, job, stage)
  {
    PlacesCoincideIff(root, job.runId, job.version, r, v);
    PlacesCoincideIff(root, r, v, job.runId, job.version);
  }

  lemma PointedElsewhere(files: Files, root: Root, job: Job, stage: nat, other: string, v: nat)
    requires 1 <= stage < 4 && Tree(files) && Succeeds(files, root, job, stage) && other != ""
    requires PointsTo(files, root, other, v) && Open(files, root, other) && !SameDir(root, other, job.runId)
    ensures Latest(WriteStage(files, root, job, stage), root, other) == Latest(files, root, other)
  {
    var after := WriteStage(files, root, job, stage);
    StageKeepsTree(files, root, job, stage);
    WriteKeepsPointer(files, root, job, stage, other, v);
    OpenStays(files, after, root, other);
    NotThatManifest(root, job, stage, other, v);
    StageElsewhere(files, root, job, stage, ManifestPlace(root, other, v));
    SamePointedLatest(files, after, root, other, v);
  }

  lemma UnpointedElsewhere(files: Files, root: Root, job: Job, stage: nat, other: string)
    requires 1 <= stage < 4 && Tree(files) && Succeeds(files, root, job, stage) && !SameDir(root, other, job.runId)
    requires var pointer := Lookup(files, root, FilePath(root, other, LATEST_NAME));
      pointer == None || pointer == Some(Folder)
    ensures Latest(WriteStage(files, root, job, stage), root, other) == Latest(files, root, other)
  {
    var after := WriteStage(files, root, job, stage);
    StageKeepsTree(files, root, job, stage);
    LookupFile(files, root, other, LATEST_NAME);
    LookupFile(after, root, other, LATEST_NAME);
    if Open(files, root, other) { OpenStays(files, after, root, other); }
    if Open(after, root, other) { OpenStays(after, files, root, other); }
    NotThatPointer(root, job, stage, other);
    StageElsewhere(files, root, job, stage, LatestPlace(root, other));
  }

  lemma FileKeepsOtherRuns(files: Files, root: Root, job: Job, stage: nat, other: string)
    requires 1 <= stage < 4 && WellFormed(files, root) && Succeeds(files, root, job, stage)
    requires !SameDir(root, other, job.runId)
    ensures Latest(WriteStage(files, root, job, stage), root, other) == Latest(files, root, other)
  {
    if other != "" {
      LatestCases(files, root, other);
      if Latest(files, root, other).Ok? {
        var v :| PointsTo(files, root, other, v);
        PointedElsewhere(files, root, job, stage, other, v);
      } else {
        UnpointedElsewhere(files, root, job, stage, other);
      }
    }
  }

  /** When what latest finds for an id changes, the id shares the job's directory, or directories were
      made that its ".." needed, or one of them is named like the pointer. */
  ghost predicate OnlyThen(files: Files, after: Files, root: Root, job: Job, other: string) {
    || Latest(after, root, other) == Latest(files, root, other)
    || SameDir(root, other, job.runId)
    || (Latest(files, root, other) == Err(NotFound) && (!NoDots(other) || LATEST_NAME in Components(job.runId)))
  }

  lemma StageKeepsOtherRuns(files: Files, root: Root, job: Job, stage: nat, other: string)
    requires stage < 4 && WellFormed(files, root) && Succeeds(files, root, job, stage)
    ensures OnlyThen(files, WriteStage(files, root, job, stage), root, job, other)
    ensures stage >= 1 && !SameDir(root, other, job.runId) ==>
      Latest(WriteStage(files, root, job, stage), root, other) == Latest(files, root, other)
  {
    if stage == 0 {
      MkdirKeepsLatest(files, root, job.runId, |RunPath(root, job.runId).parts|, other);
    } else if !SameDir(root, other, job.runId) {
      FileKeepsOtherRuns(files, root, job, stage, other);
    }
  }

  // ---------------------------------------------------------------- whole writes

  /** What the first stages steps of a job leave. */
  ghost predicate WrittenSoFar(files: Files, root: Root, job: Job, stages: nat) {
    && WellFormed(files, root)
    && (stages < 4 ==> StageReady(files, root, job, stages))
    && (stages == 4 ==> PointsTo(files, root, job.runId, job.version))
  }

  lemma StageGoesOn(files: Files, root: Root, job: Job, stage: nat, next: nat)
    requires next == stage + 1 <= 4 && WrittenSoFar(files, root, job, stage) && Succeeds(files, root, job, stage)
    ensures WrittenSoFar(WriteStage(files, root, job, stage), root, job, next)
  {
    StageKeepsWellFormed(files, root, job, stage);
    StageEstablishes(files, root, job, stage);
  }

  lemma LeadingNext(bs: seq<bool>, k: nat)
    requires k < |bs|
    ensures Leading(bs, k + 1) == k + 1 <==> Leading(bs, k) == k && bs[k]
  {
  }

  lemma ThroughNext(files: Files, root: Root, job: Job, stage: nat, next: nat)
    requires next == stage + 1 <= 4
    ensures WritesThrough(files, root, job, next)
       <==> WritesThrough(files, root, job, stage) && Succeeds(WriteStages(files, root, job, stage), root, job, stage)
  {
    LeadingNext(StepsOk(files, root, job), stage);
  }

  lemma {:induction false} WriteStagesWellFormed(files: Files, root: Root, job: Job, stages: nat)
    requires WellFormed(files, root) && stages <= 4 && WritesThrough(files, root, job, stages)
    ensures WrittenSoFar(WriteStages(files, root, job, stages), root, job, stages)
  {
    if stages != 0 {
      ThroughNext(files, root, job, stages - 1, stages);
      WriteStagesWellFormed(files, root, job, stages - 1);
      StageGoesOn(WriteStages(files, root, job, stages - 1), root, job, stages - 1, stages);
    }
  }

  lemma SurvivedWrites(files: Files, root: Root, job: Job, stages: nat)
    requires stages <= 4
    ensures WritesThrough(files, root, job, Survived(files, root, job, stages))
  {
    LeadingIs(StepsOk(files, root, job), Survived(files, root, job, stages), Survived(files, root, job, stages));
  }

  lemma LeadingIs(bs: seq<bool>, n: nat, k: nat)
    requires k <= n <= |bs| && (forall i :: 0 <= i < k ==> bs[i]) && (k < n ==> !bs[k])
    ensures Leading(bs, n) == k
  {
  }

  /** However a write ends, it leaves a well-formed store. */
  lemma LeftIsWellFormed(files: Files, root: Root, job: Job, stages: nat, made: nat)
    requires WellFormed(files, root) && stages <= 4
    ensures WellFormed(Left(files, root, job, stages, made), root)
  {
    var k := Survived(files, root, job, stages);
    SurvivedWrites(files, root, job, stages);
    if k > 0 {
      WriteStagesWellFormed(files, root, job, k);
    } else {
      MkdirKeepsWellFormed(files, root, job.runId, made);
      MkdirKeepsWellFormed(files, root, job.runId, |RunPath(root, job.runId).parts|);
    }
  }

  lemma {:induction false} WriteStagesKeepOtherRuns(files: Files, root: Root, job: Job, stages: nat, other: string)
    requires WellFormed(files, root) && stages <= 4 && WritesThrough(files, root, job, stages)
    ensures OnlyThen(files, WriteStages(files, root, job, stages), root, job, other)
  {
    if stages != 0 {
      ThroughNext(files, root, job, stages - 1, stages);
      WriteStagesKeepOtherRuns(files, root, job, stages - 1, other);
      NextKeepsOtherRuns(files, root, job, stages - 1, stages, other);
    }
  }

  lemma NextKeepsOtherRuns(files: Files, root: Root, job: Job, stage: nat, next: nat, other: string)
    requires WellFormed(files, root) && next == stage + 1 <= 4 && WritesThrough(files, root, job, next)
    requires OnlyThen(files, WriteStages(files, root, job, stage), root, job, other)
    ensures OnlyThen(files, WriteStages(files, root, job, next), root, job, other)
  {
    ThroughNext(files, root, job, stage, next);
    WriteStagesWellFormed(files, root, job, stage);
    StageKeepsOtherRuns(WriteStages(files, root, job, stage), root, job, stage, other);
  }

  /** However a write ends: what latest finds for an id changes only if the id shares its directory, or
      directories were made and nothing was found before, by an id with ".." or beside a directory named
      like the pointer. */
  lemma WriteKeepsOtherRuns(files: Files, root: Root, job: Job, stages: nat, made: nat, other: string)
    requires WellFormed(files, root) && stages <= 4
    ensures OnlyThen(files, Left(files, root, job, stages, made), root, job, other)
  {
    SurvivedWrites(files, root, job, stages);
    if Survived(files, root, job, stages) > 0 {
      WriteStagesKeepOtherRuns(files, root, job, Survived(files, root, job, stages), other);
    } else {
      MkdirKeepsLatest(files, root, job.runId, made, other);
      MkdirKeepsLatest(files, root, job.runId, |RunPath(root, job.runId).parts|, other);
    }
  }

  lemma WrittenManifest(files: Files, root: Root, job: Job, stages: nat)
    requires 3 <= stages <= 4
    ensures var place, after := ManifestPlace(root, job.runId, job.version), WriteStages(files, root, job, stages);
      place in after && after[place] == ManifestFile(ArtifactOf(root, job.runId, job.version, job.kind))
  {
    PlacesCoincideIff(root, job.runId, job.version, job.runId, job.version);
  }

  /** A complete save is what latest finds under every id that leads to its directory, written as the id
      it was saved under. */
  lemma SaveSharedByDir(files: Files, root: Root, job: Job, other: string)
    requires WellFormed(files, root) && WritesThrough(files, root, job, 4)
    requires other != "" && SameDir(root, other, job.runId)
    ensures var after := WriteStages(files, root, job, 4);
      Latest(after, root, other) ==
        if Open(after, root, other) then Ok(ArtifactOf(root, job.runId, job.version, job.kind)) else Err(NotFound)
  {
    var after := WriteStages(files, root, job, 4);
    WriteStagesWellFormed(files, root, job, 4);
    WrittenManifest(files, root, job, 4);
    if Open(after, root, other) {
      PlacesCoincideIff(root, other, job.version, job.runId, job.version);
      PointerIsLatest(after, root, other, job.version);
    } else {
      LookupFile(after, root, other, LATEST_NAME);
    }
  }

  lemma {:induction false} WrittenIsOpen(files: Files, root: Root, job: Job, stages: nat)
    requires WellFormed(files, root) && 1 <= stages <= 4 && WritesThrough(files, root, job, stages)
    ensures Open(WriteStages(files, root, job, stages), root, job.runId)
  {
    if stages == 1 {
      ThroughNext(files, root, job, 0, 1);
    } else {
      var before := WriteStages(files, root, job, stages - 1);
      ThroughNext(files, root, job, stages - 1, stages);
      WrittenIsOpen(files, root, job, stages - 1);
      WriteStagesWellFormed(files, root, job, stages - 1);
      StageKeepsTree(before, root, job, stages - 1);
      OpenStays(before, WriteStages(files, root, job, stages), root, job.runId);
    }
  }

  ghost predicate PayloadIs(files: Files, root: Root, job: Job) {
    var place := PayloadPlace(root, job.runId, job.version);
    place in files && files[place] == PayloadFile(job.payload)
  }

  lemma LaterStageKeepsPayload(files: Files, root: Root, job: Job, stage: nat)
    requires 2 <= stage < 4 && PayloadIs(files, root, job)
    ensures PayloadIs(WriteStage(files, root, job, stage), root, job)
  {
    PlacesCoincideIff(root, job.runId, job.version, job.runId, job.version);
  }

  lemma {:induction false} WrittenPayload(files: Files, root: Root, job: Job, stages: nat)
    requires 2 <= stages <= 4
    ensures PayloadIs(WriteStages(files, root, job, stages), root, job)
  {
    if stages > 2 {
      WrittenPayload(files, root, job, stages - 1);
      LaterStageKeepsPayload(WriteStages(files, root, job, stages - 1), root, job, stages - 1);
    }
  }

  /** After a complete save, what latest finds for the id leads to the payload that was to be saved. */
  lemma SaveIsFound(files: Files, root: Root, job: Job)
    requires WellFormed(files, root) && WritesThrough(files, root, job, 4) && job.runId != ""
    ensures var after, artifact := WriteStages(files, root, job, 4), ArtifactOf(root, job.runId, job.version, job.kind);
      && Latest(after, root, job.runId) == Ok(artifact)
      && Lookup(after, root, Parse(artifact.payloadPath)) == Some(PayloadFile(job.payload))
  {
    WrittenIsOpen(files, root, job, 4);
    SaveSharedByDir(files, root, job, job.runId);
    WrittenPayload(files, root, job, 4);
    TextsLead(WriteStages(files, root, job, 4), root, job.runId, job.version);
  }

  /** So a save of a plain id is also found, under its own name, by the id with a slash behind it. */
  lemma AliasFindsOther(files: Files, root: Root, job: Job)
    requires WellFormed(files, root) && Plain(job.runId) && WritesThrough(files, root, job, 4)
    ensures var found := Latest(WriteStages(files, root, job, 4), root, job.runId + "/");
      found.Ok? && found.value.runId == job.runId != job.runId + "/"
  {
    PlainIsItself(job.runId);
    TrailingSlashIsAlias(root, job.runId);
    WrittenIsOpen(files, root, job, 4);
    SaveSharedByDir(files, root, job, job.runId + "/");
  }

  lemma RoundOpens(files: Files, root: Root, id: string)
    requires Plain(id) && Open(files, root, id)
    ensures Open(files, root, WayRound(id))
  {
    WayRoundParts(id);
    PlainIsItself(id);
    RunPathParts(root, id);
    RunPathParts(root, WayRound(id));
    WalkRound(files, AnchorOf(root, id), Components(root.text), id);
  }

  lemma WalkRound(files: Files, at: Place, above: seq<string>, id: string)
    requires Opened(files, at, above + (["weights"] + [id])) && id != ".."
    ensures Opened(files, at, above + (["weights"] + ["..", "weights", id]))
  {
    var weights := above + ["weights"];
    RoundParts(above, id);
    OpenSnoc(files, at, weights, id);
    WalkBack(files, at, above);
    OpenSnoc(files, at, weights + [".."] + ["weights"], id);
  }

  lemma RoundParts(above: seq<string>, id: string)
    ensures above + (["weights"] + ["..", "weights", id]) == above + ["weights"] + [".."] + ["weights"] + [id]
    ensures above + (["weights"] + [id]) == above + ["weights"] + [id]
  {
  }

  lemma WalkBack(files: Files, at: Place, above: seq<string>)
    requires Opened(files, at, above + ["weights"])
    ensures Opened(files, at, above + ["weights"] + [".."] + ["weights"])
    ensures Land(at, above + ["weights"] + [".."] + ["weights"]) == Land(at, above + ["weights"])
  {
    var weights := above + ["weights"];
    LandSnoc(at, above, "weights");
    OpenSnoc(files, at, above, "weights");
    LandSnoc(at, weights, "..");
    assert Up(Land(at, above) + ["weights"]) == Land(at, above);
    OpenSnoc(files, at, weights, "..");
    LandSnoc(at, weights + [".."], "weights");
    OpenSnoc(files, at, weights + [".."], "weights");
  }

  /** And by "../weights/" in front of it. */
  lemma WayRoundFindsOther(files: Files, root: Root, job: Job)
    requires WellFormed(files, root) && Plain(job.runId) && WritesThrough(files, root, job, 4)
    ensures var found := Latest(WriteStages(files, root, job, 4), root, WayRound(job.runId));
      found.Ok? && found.value.runId == job.runId != WayRound(job.runId)
  {
    WayRoundSharesDir(root, job.runId);
    WrittenIsOpen(files, root, job, 4);
    RoundOpens(WriteStages(files, root, job, 4), root, job.runId);
    SaveSharedByDir(files, root, job, WayRound(job.runId));
  }

  function Detour(x: string, id: string): string {
    x + "/../" + id
  }

  lemma DetourParts(x: string, id: string)
    requires Plain(x) && Plain(id)
    ensures !Absolute(Detour(x, id)) && Components(Detour(x, id)) == [x, "..", id]
  {
    assert IsComponent("..") && IsComponent(x);
    TwoParts("..", id);
    TwoParts(x, "../" + id);
    assert x + "/" + ("../" + id) == Detour(x, id) && ".." + "/" + id == "../" + id;
    PlainIsItself(id);
    assert Detour(x, id)[0] == x[0];
  }

  /** A detour through another run's directory is open exactly when both directories are. */
  lemma WalkDetour(files: Files, at: Place, above: seq<string>, x: string, id: string)
    requires x != ".." && id != ".."
    ensures Opened(files, at, above + (["weights"] + [x, "..", id]))
       <==> Opened(files, at, above + ["weights"] + [x]) && Opened(files, at, above + ["weights"] + [id])
    ensures Land(at, above + (["weights"] + [x, "..", id])) == Land(at, above + ["weights"] + [id])
  {
    var weights := above + ["weights"];
    assert above + (["weights"] + [x, "..", id]) == weights + [x] + [".."] + [id];
    LandSnoc(at, weights, x);
    LandSnoc(at, weights, id);
    LandSnoc(at, weights + [x], "..");
    assert Up(Land(at, weights) + [x]) == Land(at, weights);
    LandSnoc(at, weights + [x] + [".."], id);
    OpenSnoc(files, at, weights, x);
    OpenSnoc(files, at, weights, id);
    OpenSnoc(files, at, weights + [x], "..");
    OpenSnoc(files, at, weights + [x] + [".."], id);
  }

  lemma DetourIs(files: Files, root: Root, x: string, id: string)
    requires Plain(x) && Plain(id)
    ensures SameDir(root, Detour(x, id), id)
    ensures Open(files, root, Detour(x, id)) <==> Open(files, root, x) && Open(files, root, id)
  {
    DetourParts(x, id);
    PlainIsItself(x);
    PlainIsItself(id);
    RunPathParts(root, x);
    RunPathParts(root, id);
    RunPathParts(root, Detour(x, id));
    var above := Components(root.text);
    assert above + (["weights"] + [x]) == above + ["weights"] + [x];
    assert above + (["weights"] + [id]) == above + ["weights"] + [id];
    WalkDetour(files, AnchorOf(root, id), above, x, id);
  }

  /** So making another run's directory can let such an id find what it did not find before. */
  lemma DetourOpens(files: Files, root: Root, job: Job, id: string, v: nat)
    requires WellFormed(files, root) && Plain(id) && Plain(job.runId) && Succeeds(files, root, job, 0)
    requires PointsTo(files, root, id, v) && Open(files, root, id) && !Open(files, root, job.runId)
    ensures Latest(files, root, Detour(job.runId, id)) == Err(NotFound)
    ensures Latest(WriteStage(files, root, job, 0), root, Detour(job.runId, id)) == Latest(files, root, id)
    ensures Latest(files, root, id).Ok?
  {
    var detour, after := Detour(job.runId, id), WriteStage(files, root, job, 0);
    DetourParts(job.runId, id);
    DetourIs(files, root, job.runId, id);
    DetourIs(after, root, job.runId, id);
    LookupFile(files, root, detour, LATEST_NAME);
    MkdirAdds(files, root, job.runId, |RunPath(root, job.runId).parts|);
    AddsKeepFacts(files, after, root, id, v);
    OpenStays(files, after, root, id);
    PointerIsLatest(files, root, id, v);
    SamePointedLatest(files, after, root, id, v);
    PlacesCoincideIff(root, detour, v, id, v);
    SharedLatest(after, root, detour, id);
  }

  /** Ids that lead to one place that is there for both find the same. */
  lemma SharedLatest(files: Files, root: Root, a: string, b: string)
    requires a != "" && b != "" && SameDir(root, a, b) && Open(files, root, a) && Open(files, root, b)
    ensures Latest(files, root, a) == Latest(files, root, b)
  {
    LookupFile(files, root, a, LATEST_NAME);
    LookupFile(files, root, b, LATEST_NAME);
    assert Lookup(files, root, FilePath(root, a, LATEST_NAME)) == Lookup(files, root, FilePath(root, b, LATEST_NAME));
  }

  /** Making the directory of an id whose last component is named like the pointer hides the pointer of
      the id before it: latest raises from then on. */
  lemma FolderHidesPointer(files: Files, root: Root, id: string, job: Job)
    requires WellFormed(files, root) && Plain(id) && LatestPlace(root, id) !in files
    requires job.runId == id + "/" + LATEST_NAME && Succeeds(files, root, job, 0)
    ensures Latest(files, root, id) == Err(NotFound)
    ensures Latest(WriteStage(files, root, job, 0), root, id) == Err(OsError)
  {
    var after := WriteStage(files, root, job, 0);
    HidingParts(root, id);
    PlainIsItself(id);
    PlainDirs(root, id, id);
    PointerIfThere(files, root, id);
    MkdirAdds(files, root, job.runId, |RunPath(root, job.runId).parts|);
    SettledStays(files, after, root);
    PointerIfThere(after, root, id);
  }

  lemma HidingParts(root: Root, id: string)
    requires Plain(id)
    ensures RunDir(root, id + "/" + LATEST_NAME) == LatestPlace(root, id)
  {
    assert Plain(LATEST_NAME) && IsComponent(id);
    TwoParts(id, LATEST_NAME);
    PlainIsItself(LATEST_NAME);
    PlainDirs(root, id, id);
    PlainIsItself(id);
    assert id[0] == (id + "/" + LATEST_NAME)[0];
    RunDirIs(root, id + "/" + LATEST_NAME);
    LandDown(Base(root), [id] + [LATEST_NAME]);
    assert Base(root) + ([id] + [LATEST_NAME]) == Base(root) + [id] + [LATEST_NAME];
  }

  /** Before its pointer is written, a save moves no run's pointer. */
  lemma {:induction false} EarlyStagesKeepPointer(files: Files, root: Root, job: Job, stages: nat, id: string)
    requires stages <= 3
    ensures var before, after, place := files, WriteStages(files, root, job, stages), LatestPlace(root, id);
      && (place in before ==> place in after && after[place] == before[place])
      && (place in after && place !in before ==> after[place].Folder?)
  {
    if stages == 1 {
      var path := RunPath(root, job.runId);
      MakeOnlyAdds(files, Anchor(root, path), FirstOf(path.parts, |path.parts|));
    } else if stages > 1 {
      EarlyStagesKeepPointer(files, root, job, stages - 1, id);
      NotThatPointer(root, job, stages - 1, id);
      StageElsewhere(WriteStages(files, root, job, stages - 1), root, job, stages - 1, LatestPlace(root, id));
    }
  }

  lemma {:induction false} EarlyStagesKeepTarget(files: Files, root: Root, job: Job, stages: nat, id: string, v: nat)
    requires WellFormed(files, root) && stages <= 3 && WritesThrough(files, root, job, stages)
    requires PointsTo(files, root, id, v)
    ensures PointsTo(WriteStages(files, root, job, stages), root, id, v)
  {
    if stages != 0 {
      ThroughNext(files, root, job, stages - 1, stages);
      EarlyStagesKeepTarget(files, root, job, stages - 1, id, v);
      EarlyTargetNext(files, root, job, stages - 1, stages, id, v);
    }
  }

  lemma EarlyTargetNext(files: Files, root: Root, job: Job, stage: nat, next: nat, id: string, v: nat)
    requires WellFormed(files, root) && next == stage + 1 <= 3 && WritesThrough(files, root, job, next)
    requires PointsTo(WriteStages(files, root, job, stage), root, id, v)
    ensures PointsTo(WriteStages(files, root, job, next), root, id, v)
  {
    ThroughNext(files, root, job, stage, next);
    WriteStagesWellFormed(files, root, job, stage);
    StageKeepsFacts(WriteStages(files, root, job, stage), root, job, stage, id, v);
  }

  /** Saving a version again changes what the pointer leads to before the pointer is written: the
      manifest is replaced one file write earlier. */
  lemma ResaveShowsEarly(files: Files, root: Root, job: Job)
    requires WellFormed(files, root) && PointsTo(files, root, job.runId, job.version) && job.runId != ""
    requires WritesThrough(files, root, job, 3)
    ensures Latest(WriteStages(files, root, job, 3), root, job.runId)
         == Ok(ArtifactOf(root, job.runId, job.version, job.kind))
  {
    EarlyStagesKeepTarget(files, root, job, 3, job.runId, job.version);
    WrittenManifest(files, root, job, 3);
    WrittenIsOpen(files, root, job, 3);
    PointerIsLatest(WriteStages(files, root, job, 3), root, job.runId, job.version);
  }

  /** The pointer follows the last write, not the greatest version: it can go back. */
  lemma PointerGoesBack(files: Files, root: Root, job: Job, version: nat)
    requires WellFormed(files, root) && job.runId != "" && WritesThrough(files, root, job, 4)
    requires PointsTo(files, root, job.runId, version) && Open(files, root, job.runId) && job.version < version
    ensures var before := Latest(files, root, job.runId);
      var after := Latest(WriteStages(files, root, job, 4), root, job.runId);
      && before.Ok? && before.value.checkpointVersion == version
      && after.Ok? && after.value.checkpointVersion == job.version
  {
    PointerIsLatest(files, root, job.runId, version);
    WrittenIsOpen(files, root, job, 4);
    SaveSharedByDir(files, root, job, job.runId);
  }

  // ---------------------------------------------------------------- concurrent writers and crashes

  // done counts the steps performed; a writer that crashed is one that never advances again.
  datatype Writer = Writer(job: Job, done: nat)

  datatype World = World(files: Files, writers: seq<Writer>)

  // Prepare is a part of a mkdir: so many components made, and perhaps no more to come.
  datatype WorldStep = Begin(job: Job) | Prepare(writer: nat, made: nat) | Advance(writer: nat)

  predicate CanStep(w: World, root: Root, step: WorldStep) {
    match step
    case Begin(job) => job.runId != ""
    case Prepare(i, _) => i < |w.writers| && w.writers[i].done == 0
    case Advance(i) =>
      i < |w.writers| && w.writers[i].done < 4 && Succeeds(w.files, root, w.writers[i].job, w.writers[i].done)
  }

  function DoStep(w: World, root: Root, step: WorldStep): World
    requires CanStep(w, root, step)
  {
    match step
    case Begin(job) => w.(writers := w.writers + [Writer(job, 0)])
    case Prepare(i, made) => w.(files := Mkdir(w.files, root, w.writers[i].job.runId, made))
    case Advance(i) =>
      var writer := w.writers[i];
      World(WriteStage(w.files, root, writer.job, writer.done),
            w.writers[i := writer.(done := writer.done + 1)])
  }

  ghost predicate WorldRun(worlds: seq<World>, steps: seq<WorldStep>, root: Root) {
    && |worlds| == |steps| + 1
    && worlds[0].writers == [] && WellFormed(worlds[0].files, root)
    && forall i {:trigger steps[i]} :: 0 <= i < |steps| ==>
         CanStep(worlds[i], root, steps[i]) && worlds[i + 1] == DoStep(worlds[i], root, steps[i])
  }

  ghost predicate AllReady(files: Files, root: Root, writers: seq<Writer>) {
    forall i :: 0 <= i < |writers| ==>
      writers[i].done <= 4 && StageReady(files, root, writers[i].job, writers[i].done)
  }

  ghost predicate WorldInv(w: World, root: Root) {
    WellFormed(w.files, root) && AllReady(w.files, root, w.writers)
  }

  lemma ReadyStays(before: Files, after: Files, root: Root, job: Job, done: nat)
    requires FoldersStay(before, after) && StageReady(before, root, job, done)
    requires HasPayload(before, root, job.runId, job.version) ==> HasPayload(after, root, job.runId, job.version)
    requires HasManifest(before, root, job.runId, job.version) ==> HasManifest(after, root, job.runId, job.version)
    ensures StageReady(after, root, job, done)
  {
    if done >= 1 { OpenStays(before, after, root, job.runId); }
  }

  lemma PrepareKeepsInv(w: World, root: Root, step: WorldStep)
    requires WorldInv(w, root) && step.Prepare? && CanStep(w, root, step)
    ensures WorldInv(DoStep(w, root, step), root)
  {
    var runId := w.writers[step.writer].job.runId;
    var after := Mkdir(w.files, root, runId, step.made);
    MkdirKeepsWellFormed(w.files, root, runId, step.made);
    MkdirAdds(w.files, root, runId, step.made);
    forall i | 0 <= i < |w.writers| ensures StageReady(after, root, w.writers[i].job, w.writers[i].done) {
      AddsKeepFacts(w.files, after, root, w.writers[i].job.runId, w.writers[i].job.version);
      ReadyStays(w.files, after, root, w.writers[i].job, w.writers[i].done);
    }
  }

  lemma AdvanceKeepsInv(w: World, root: Root, step: WorldStep)
    requires WorldInv(w, root) && step.Advance? && CanStep(w, root, step)
    ensures WorldInv(DoStep(w, root, step), root)
  {
    var writer, n := w.writers[step.writer], DoStep(w, root, step);
    StageKeepsWellFormed(w.files, root, writer.job, writer.done);
    StageEstablishes(w.files, root, writer.job, writer.done);
    StageKeepsFacts(w.files, root, writer.job, writer.done, writer.job.runId, writer.job.version);
    if writer.done >= 1 { OpenStays(w.files, n.files, root, writer.job.runId); }
    forall i | 0 <= i < |n.writers|
      ensures n.writers[i].done <= 4 && StageReady(n.files, root, n.writers[i].job, n.writers[i].done)
    {
      if i == step.writer {
        AdvancedIsReady(w.files, root, writer.job, writer.done);
      } else {
        StageKeepsFacts(w.files, root, writer.job, writer.done, w.writers[i].job.runId, w.writers[i].job.version);
        ReadyStays(w.files, n.files, root, w.writers[i].job, w.writers[i].done);
      }
    }
  }

  lemma AdvancedIsReady(files: Files, root: Root, job: Job, stage: nat)
    requires stage < 4 && WellFormed(files, root) && Succeeds(files, root, job, stage)
    requires StageReady(files, root, job, stage)
    ensures StageReady(WriteStage(files, root, job, stage), root, job, stage + 1)
  {
    var after := WriteStage(files, root, job, stage);
    StageEstablishes(files, root, job, stage);
    StageKeepsFacts(files, root, job, stage, job.runId, job.version);
    if stage >= 1 { OpenStays(files, after, root, job.runId); }
  }

  lemma WorldStepKeepsInv(w: World, root: Root, step: WorldStep)
    requires WorldInv(w, root) && CanStep(w, root, step)
    ensures WorldInv(DoStep(w, root, step), root)
  {
    match step
    case Begin(_) =>
    case Prepare(_, _) => PrepareKeepsInv(w, root, step);
    case Advance(_) => AdvanceKeepsInv(w, root, step);
  }

  lemma WorldInvNext(worlds: seq<World>, steps: seq<WorldStep>, root: Root, i: nat, j: nat)
    requires WorldRun(worlds, steps, root) && j == i + 1 <= |steps| && WorldInv(worlds[i], root)
    ensures WorldInv(worlds[j], root)
  {
    WorldStepKeepsInv(worlds[i], root, steps[i]);
  }

  lemma {:induction false} WorldRunKeepsInv(worlds: seq<World>, steps: seq<WorldStep>, root: Root, i: nat)
    requires WorldRun(worlds, steps, root) && i <= |steps|
    ensures WorldInv(worlds[i], root)
  {
    if i != 0 {
      WorldRunKeepsInv(worlds, steps, root, i - 1);
      WorldInvNext(worlds, steps, root, i - 1, i);
    }
  }

  /** Every manifest was written under an id of one plain component. */
  ghost predicate PlainManifests(files: Files) {
    forall place :: place in files && files[place].ManifestFile? ==> Plain(files[place].artifact.runId)
  }

  /** A property of the ids that writers write under. */
  ghost predicate JobsAre(steps: seq<WorldStep>, ok: string -> bool) {
    forall k :: 0 <= k < |steps| && steps[k].Begin? ==> ok(steps[k].job.runId)
  }

  ghost predicate WritersAre(writers: seq<Writer>, ok: string -> bool) {
    forall k :: 0 <= k < |writers| ==> ok(writers[k].job.runId)
  }

  lemma {:induction false} WritersStay(worlds: seq<World>, steps: seq<WorldStep>, root: Root, i: nat,
                                       ok: string -> bool)
    requires WorldRun(worlds, steps, root) && i <= |steps| && JobsAre(steps, ok)
    ensures WritersAre(worlds[i].writers, ok)
  {
    if i != 0 {
      WritersStay(worlds, steps, root, i - 1, ok);
      WritersNext(worlds, steps, root, i - 1, i, ok);
    }
  }

  lemma WritersAfter(w: World, root: Root, step: WorldStep, ok: string -> bool)
    requires WritersAre(w.writers, ok) && CanStep(w, root, step) && (step.Begin? ==> ok(step.job.runId))
    ensures WritersAre(DoStep(w, root, step).writers, ok)
  {
  }

  lemma WritersNext(worlds: seq<World>, steps: seq<WorldStep>, root: Root, i: nat, j: nat, ok: string -> bool)
    requires WorldRun(worlds, steps, root) && j == i + 1 <= |steps|
    requires WritersAre(worlds[i].writers, ok) && (steps[i].Begin? ==> ok(steps[i].job.runId))
    ensures WritersAre(worlds[j].writers, ok)
  {
    WritersAfter(worlds[i], root, steps[i], ok);
  }

  lemma AddsStayPlain(before: Files, after: Files)
    requires PlainManifests(before) && OnlyAdds(before, after)
    ensures PlainManifests(after)
  {
  }

  lemma MkdirStaysPlain(files: Files, root: Root, runId: string, made: nat)
    requires PlainManifests(files)
    ensures PlainManifests(Mkdir(files, root, runId, made))
  {
    var path := RunPath(root, runId);
    MakeOnlyAdds(files, Anchor(root, path), FirstOf(path.parts, made));
    AddsStayPlain(files, Mkdir(files, root, runId, made));
  }

  lemma FileStaysPlain(files: Files, root: Root, job: Job, stage: nat)
    requires 1 <= stage < 4 && PlainManifests(files) && Plain(job.runId)
    ensures PlainManifests(WriteStage(files, root, job, stage))
  {
  }

  lemma StepStaysPlain(w: World, root: Root, step: WorldStep)
    requires PlainManifests(w.files) && WritersAre(w.writers, Plain) && CanStep(w, root, step)
    ensures PlainManifests(DoStep(w, root, step).files)
  {
    match step
    case Begin(_) =>
    case Prepare(i, made) => MkdirStaysPlain(w.files, root, w.writers[i].job.runId, made);
    case Advance(i) =>
      var job := w.writers[i].job;
      if w.writers[i].done == 0 {
        MkdirStaysPlain(w.files, root, job.runId, |RunPath(root, job.runId).parts|);
      } else {
        FileStaysPlain(w.files, root, job, w.writers[i].done);
      }
  }

  lemma PlainNext(worlds: seq<World>, steps: seq<WorldStep>, root: Root, i: nat, j: nat)
    requires WorldRun(worlds, steps, root) && j == i + 1 <= |steps|
    requires PlainManifests(worlds[i].files) && WritersAre(worlds[i].writers, Plain)
    ensures PlainManifests(worlds[j].files)
  {
    StepStaysPlain(worlds[i], root, steps[i]);
  }

  lemma {:induction false} ManifestsStayPlain(worlds: seq<World>, steps: seq<WorldStep>, root: Root, i: nat)
    requires WorldRun(worlds, steps, root) && i <= |steps|
    requires PlainManifests(worlds[0].files) && JobsAre(steps, Plain)
    ensures PlainManifests(worlds[i].files)
  {
    if i != 0 {
      ManifestsStayPlain(worlds, steps, root, i - 1);
      WritersStay(worlds, steps, root, i - 1, Plain);
      PlainNext(worlds, steps, root, i - 1, i);
    }
  }

  /** No component of the id is named like the pointer. */
  predicate NotPointer(id: string) {
    LATEST_NAME !in Components(id)
  }

  ghost predicate PointerIsFolder(files: Files, root: Root, runId: string) {
    LatestPlace(root, runId) in files && files[LatestPlace(root, runId)].Folder?
  }

  lemma NoNewFolder(w: World, root: Root, step: WorldStep, runId: string)
    requires WorldInv(w, root) && CanStep(w, root, step) && WritersAre(w.writers, NotPointer)
    ensures PointerIsFolder(DoStep(w, root, step).files, root, runId) ==> PointerIsFolder(w.files, root, runId)
  {
    if !step.Begin? {
      var job := w.writers[step.writer].job;
      if step.Prepare? || w.writers[step.writer].done == 0 {
        var made := if step.Prepare? then step.made else |RunPath(root, job.runId).parts|;
        NoFolderForPointer(w.files, root, job.runId, made, runId);
        MkdirAdds(w.files, root, job.runId, made);
      }
    }
  }

  lemma NoNewFolderNext(worlds: seq<World>, steps: seq<WorldStep>, root: Root, i: nat, j: nat, runId: string)
    requires WorldRun(worlds, steps, root) && j == i + 1 <= |steps| && JobsAre(steps, NotPointer)
    requires PointerIsFolder(worlds[j].files, root, runId)
    ensures PointerIsFolder(worlds[i].files, root, runId)
  {
    WorldRunKeepsInv(worlds, steps, root, i);
    WritersStay(worlds, steps, root, i, NotPointer);
    NoNewFolder(worlds[i], root, steps[i], runId);
  }

  lemma {:induction false} NoNewFolders(worlds: seq<World>, steps: seq<WorldStep>, root: Root, i: nat, runId: string)
    requires WorldRun(worlds, steps, root) && i <= |steps| && JobsAre(steps, NotPointer)
    requires PointerIsFolder(worlds[i].files, root, runId)
    ensures PointerIsFolder(worlds[0].files, root, runId)
  {
    if i != 0 {
      NoNewFolderNext(worlds, steps, root, i - 1, i, runId);
      NoNewFolders(worlds, steps, root, i - 1, runId);
    }
  }

  /** What latest says in a well-formed store: nothing is there, or a directory is in the pointer's place,
      or an artifact of the id's directory whose two files are there, the manifest being the one found. */
  ghost predicate Trustworthy(files: Files, root: Root, runId: string) {
    var pointer := Lookup(files, root, FilePath(root, runId, LATEST_NAME));
    match Latest(files, root, runId)
    case Err(e) => (e == NotFound && pointer == None) || (e == OsError && pointer == Some(Folder))
    case Ok(a) =>
      var payload, manifest := Lookup(files, root, Parse(a.payloadPath)), Lookup(files, root, Parse(a.manifestPath));
      && SameDir(root, a.runId, runId)
      && payload.Some? && payload.value.PayloadFile?
      && manifest == Some(ManifestFile(a))
  }

  lemma WellFormedIsTrustworthy(files: Files, root: Root, runId: string)
    requires WellFormed(files, root) && runId != ""
    ensures Trustworthy(files, root, runId)
  {
    LatestCases(files, root, runId);
    if Latest(files, root, runId).Ok? {
      var v :| PointsTo(files, root, runId, v);
      PointerIsLatest(files, root, runId, v);
      var a := Latest(files, root, runId).value;
      PlacesCoincideIff(root, a.runId, v, runId, v);
      TextsLead(files, root, a.runId, v);
    }
  }

  lemma PlainFindsItself(files: Files, root: Root, runId: string)
    requires WellFormed(files, root) && PlainManifests(files) && Plain(runId) && Latest(files, root, runId).Ok?
    ensures Latest(files, root, runId).value.runId == runId
  {
    LatestCases(files, root, runId);
    var v :| PointsTo(files, root, runId, v);
    PointerIsLatest(files, root, runId, v);
    PlainDirs(root, runId, Latest(files, root, runId).value.runId);
  }

  lemma RaisesForFolder(files: Files, root: Root, runId: string)
    requires WellFormed(files, root) && Latest(files, root, runId) == Err(OsError)
    ensures PointerIsFolder(files, root, runId)
  {
    LatestCases(files, root, runId);
    LookupFile(files, root, runId, LATEST_NAME);
  }

  /** From any well-formed store, whatever writers have been writing at the same time, and wherever some
      of them stopped: latest is trustworthy. It raises only over a directory in the pointer's place that
      was there before, or was made for an id with a component named like the pointer; and what it finds
      is of the very id when all ids are plain. */
  lemma LatestSurvivesCrashes(worlds: seq<World>, steps: seq<WorldStep>, root: Root, i: nat, runId: string)
    requires WorldRun(worlds, steps, root) && i <= |steps| && runId != ""
    ensures Trustworthy(worlds[i].files, root, runId)
    ensures Latest(worlds[i].files, root, runId) == Err(OsError) ==>
      PointerIsFolder(worlds[0].files, root, runId) || !JobsAre(steps, NotPointer)
    ensures PlainManifests(worlds[0].files) && JobsAre(steps, Plain) && Plain(runId) ==>
      Latest(worlds[i].files, root, runId).Err? || Latest(worlds[i].files, root, runId).value.runId == runId
  {
    WorldRunKeepsInv(worlds, steps, root, i);
    WellFormedIsTrustworthy(worlds[i].files, root, runId);
    if Latest(worlds[i].files, root, runId) == Err(OsError) && JobsAre(steps, NotPointer) {
      RaisesForFolder(worlds[i].files, root, runId);
      NoNewFolders(worlds, steps, root, i, runId);
    }
    if PlainManifests(worlds[0].files) && JobsAre(steps, Plain) && Plain(runId) {
      ManifestsStayPlain(worlds, steps, root, i);
      if Latest(worlds[i].files, root, runId).Ok? { PlainFindsItself(worlds[i].files, root, runId); }
    }
  }

  // ---------------------------------------------------------------- the store object

  lemma SurvivedIs(files: Files, root: Root, job: Job, stages: nat, k: nat)
    requires k <= stages <= 4 && WritesThrough(files, root, job, k)
    requires k < stages ==> !Succeeds(WriteStages(files, root, job, k), root, job, k)
    ensures Survived(files, root, job, stages) == k
  {
    LeadingIs(StepsOk(files, root, job), stages, k);
  }

  /** A file that is written does not close the way to it. */
  lemma StaysOpen(files: Files, root: Root, job: Job, stage: nat)
    requires 1 <= stage < 4 && Succeeds(files, root, job, stage)
    ensures Open(WriteStage(files, root, job, stage), root, job.runId)
  {
    assert FoldersStay(files, WriteStage(files, root, job, stage));
    OpenStays(files, WriteStage(files, root, job, stage), root, job.runId);
  }

  /** Four at most. */
  function Steps(survives: nat): (stages: nat)
    ensures stages <= 4
  {
    if survives < 4 then survives else 4
  }

  lemma LeftIs(files: Files, root: Root, job: Job, stages: nat, made: nat, k: nat)
    requires stages <= 4 && Survived(files, root, job, stages) == k > 0
    ensures Left(files, root, job, stages, made) == WriteStages(files, root, job, k)
  {
  }

  lemma TextWritten(was: Files, root: Root, job: Job, stage: nat, next: nat)
    requires 1 <= stage < 4 && next == stage + 1 && WritesThrough(was, root, job, stage)
    requires Succeeds(WriteStages(was, root, job, stage), root, job, stage)
    ensures WritesThrough(was, root, job, next) && Open(WriteStages(was, root, job, next), root, job.runId)
    ensures WriteStages(was, root, job, next)
         == WriteStages(was, root, job, stage)[StagePlace(root, job, stage) := StageNode(root, job, stage)]
  {
    StaysOpen(WriteStages(was, root, job, stage), root, job, stage);
    ThroughNext(was, root, job, stage, next);
  }

  lemma TextRaises(was: Files, root: Root, job: Job, stage: nat, survives: nat)
    requires 1 <= stage < 4 && stage <= survives && WritesThrough(was, root, job, stage)
    requires stage < survives ==> !Succeeds(WriteStages(was, root, job, stage), root, job, stage)
    ensures Survived(was, root, job, Steps(survives)) == stage
  {
    SurvivedIs(was, root, job, Steps(survives), stage);
  }

  class FilesystemArtifactStore {
    const root: Root
    var files: Files

    /** The store over the files that are already there. */
    constructor (root: Root, files: Files)
      ensures this.root == root && this.files == files
    {
      this.root := root;
      this.files := files;
    }

    /** write_text of one of the three files; was is what there was before the write began. */
    method WriteText(job: Job, stage: nat, survives: nat, ghost was: Files, ghost next: nat) returns (ok: bool)
      requires 1 <= stage < 4 && next == stage + 1 && stage <= survives && Open(files, root, job.runId)
      requires files == WriteStages(was, root, job, stage) && WritesThrough(was, root, job, stage)
      modifies this`files
      ensures ok ==> next <= survives && Open(files, root, job.runId)
      ensures ok ==> files == WriteStages(was, root, job, next) && WritesThrough(was, root, job, next)
      ensures !ok ==> files == old(files) && Survived(was, root, job, Steps(survives)) == stage
    {
      ok := stage < survives && !IsFolder(files, StagePlace(root, job, stage));
      if ok {
        TextWritten(was, root, job, stage, next);
        files := files[StagePlace(root, job, stage) := StageNode(root, job, stage)];
      } else {
        TextRaises(was, root, job, stage, survives);
      }
    }

    /** The accepted write: directory, payload, manifest, pointer. */
    method WriteFiles(job: Job, survives: nat, made: nat) returns (ok: bool)
      modifies this`files
      ensures files == Left(old(files), root, job, Steps(survives), made)
      ensures ok == (Survived(old(files), root, job, Steps(survives)) == 4)
    {
      ghost var was := files;
      if survives == 0 {
        files := Mkdir(files, root, job.runId, made);
        return false;
      }
      files := WriteStage(files, root, job, 0);
      if !Open(files, root, job.runId) {
        SurvivedIs(was, root, job, Steps(survives), 0);
        return false;
      }
      ThroughNext(was, root, job, 0, 1);
      ok := WriteText(job, 1, survives, was, 2);
      if !ok {
        LeftIs(was, root, job, Steps(survives), made, 1);
        return;
      }
      ok := WriteText(job, 2, survives, was, 3);
      if !ok {
        LeftIs(was, root, job, Steps(survives), made, 2);
        return;
      }
      ok := WriteText(job, 3, survives, was, 4);
      if !ok {
        LeftIs(was, root, job, Steps(survives), made, 3);
        return;
      }
      SurvivedIs(was, root, job, 4, 4);
      LeftIs(was, root, job, 4, made, 4);
    }

    /** survives is how many of the four steps nothing outside makes raise, made how far an interrupted
        mkdir gets. */
    method Write(runId: string, checkpointVersion: int, kind: ArtifactKind, payload: Payload, survives: nat, made: nat)
      returns (r: Result<WeightArtifact, Error>)
      modifies this`files
      ensures runId == "" || checkpointVersion < 0 ==> r == Err(InvalidRequest) && files == old(files)
      ensures runId != "" && checkpointVersion >= 0 ==>
          var job := Job(runId, checkpointVersion, kind, payload);
          && files == Left(old(files), root, job, Steps(survives), made)
          && r == if Survived(old(files), root, job, Steps(survives)) < 4 then Err(OsError)
                  else Ok(ArtifactOf(root, runId, checkpointVersion, kind))
      ensures r.Ok? ==>
          r.value.runId == runId && r.value.checkpointVersion == checkpointVersion && r.value.kind == kind
    {
      if runId == "" || checkpointVersion < 0 {
        return Err(InvalidRequest);
      }
      var ok := WriteFiles(Job(runId, checkpointVersion, kind, payload), survives, made);
      r := if ok then Ok(ArtifactOf(root, runId, checkpointVersion, kind)) else Err(OsError);
    }

    method ReadLatest(runId: string) returns (r: Result<WeightArtifact, Error>)
      ensures r == Latest(files, root, runId)
      ensures runId == "" ==> r == Err(InvalidRequest)
      ensures runId != "" ==>
          match Lookup(files, root, FilePath(root, runId, LATEST_NAME))
          case None => r == Err(NotFound)
          case Some(LatestFile(text)) =>
            (match Lookup(files, root, Parse(text))
             case None => r == Err(NotFound)
             case Some(ManifestFile(artifact)) => r == Ok(artifact)
             case Some(_) => r.Err? && r.error != NotFound)
          case Some(_) => r.Err? && r.error != NotFound
    {
      if runId == "" {
        return Err(InvalidRequest);
      }
      var pointer := Lookup(files, root, FilePath(root, runId, LATEST_NAME));
      if pointer.None? {
        return Err(NotFound);
      }
      if pointer.value.Folder? {
        return Err(OsError);
      }
      if !pointer.value.LatestFile? {
        return Err(ValueError);
      }
      var manifest := Lookup(files, root, Parse(pointer.value.manifestPath));
      if manifest.None? {
        return Err(NotFound);
      }
      if manifest.value.Folder? {
        return Err(OsError);
      }
      if manifest.value.ManifestFile? {
        r := Ok(manifest.value.artifact);
      } else {
        r := Err(ValueError);
      }
    }
  }
}
