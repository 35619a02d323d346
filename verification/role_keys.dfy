/** The text keys under which role endpoints are stored. */
module RoleKeys {
  import opened Wrappers
  import opened Text
  import opened Splitting

  datatype RoleKey = RoleKey(deployment: string, run: string, role: string, rank: int) {
    predicate Valid() {
      deployment != "" && run != "" && role != "" && rank >= 0
    }

    /** The three names contain no separator. */
    ghost predicate ColonFree() {
      Without(deployment, ':') && Without(run, ':') && Without(role, ':')
    }
  }

  function StorageKey(k: RoleKey): string
    requires k.Valid()
  {
    Join("ganker", ':', Join(k.deployment, ':', Join(k.run, ':', Join(k.role, ':', Decimal(k.rank)))))
  }

  /** The keys of one deployment and run all start with this text. */
  function ScanPrefix(deployment: string, run: string): string {
    "ganker" + [':'] + deployment + [':'] + run + [':']
  }

  function StartsWith(s: string, prefix: string): bool {
    prefix <= s
  }

  /** int(text) for an optional sign and decimal digits. */
  function ParseInt(text: string): Result<int, Error> {
    if text != [] && text[0] == '-' && AllDigits(text[1..]) && text[1..] != [] then
      var magnitude: int := ParseDecimal(text[1..]);
      Ok(-magnitude)
    else if text != [] && text[0] == '+' && AllDigits(text[1..]) && text[1..] != [] then Ok(ParseDecimal(text[1..]))
    else if text != [] && AllDigits(text) then Ok(ParseDecimal(text))
    else Err(ValueError)
  }

  function MakeKey(deployment: string, run: string, role: string, rank: int): (r: Result<RoleKey, Error>) {
    var k := RoleKey(deployment, run, role, rank);
    if k.Valid() then Ok(k) else Err(InvalidRequest)
  }

  function FromStorageKey(value: string): (r: Result<RoleKey, Error>)
    ensures r.Ok? ==> r.value.Valid()
  {
    var parts := Split(value, ':');
    if |parts| != 5 || parts[0] != "ganker" then Err(InvalidRequest)
    else
      match ParseInt(parts[4])
      case Err(e) => Err(e)
      case Ok(rank) => MakeKey(parts[1], parts[2], parts[3], rank)
  }

  /** The names of a key, cut at every separator, and its rank. */
  function Pieces(k: RoleKey): seq<string>
    requires k.Valid()
  {
    Split(k.deployment, ':') + Split(k.run, ':') + Split(k.role, ':')
  }

  lemma SplitKey(k: RoleKey)
    requires k.Valid()
    ensures Split(StorageKey(k), ':') == ["ganker"] + (Pieces(k) + [Decimal(k.rank)])
  {
    var digits := Decimal(k.rank);
    var tail := Join(k.role, ':', digits);
    SplitJoin("ganker", ':', Join(k.deployment, ':', Join(k.run, ':', tail)));
    SplitJoin(k.deployment, ':', Join(k.run, ':', tail));
    SplitJoin(k.run, ':', tail);
    SplitJoin(k.role, ':', digits);
    DigitsAreFree(k.rank, ':');
    SplitNone(digits, ':');
    SplitNone("ganker", ':');
    Regroup(Split(k.deployment, ':'), Split(k.run, ':'), Split(k.role, ':'), [digits]);
  }

  lemma Regroup(a: seq<string>, b: seq<string>, c: seq<string>, d: seq<string>)
    ensures a + (b + (c + d)) == (a + b + c) + d
  {
  }

  lemma ParseIntDecimal(n: nat)
    ensures ParseInt(Decimal(n)) == Ok(n)
  {
    ParseInvertsDecimal(n);
    assert IsDigit(Decimal(n)[0]);
  }

  /** A key is read back from its text exactly when no name in it contains the separator. */
  lemma RoundTripIff(k: RoleKey)
    requires k.Valid()
    ensures FromStorageKey(StorageKey(k)) == Ok(k) <==> k.ColonFree()
    ensures FromStorageKey(StorageKey(k)) != Ok(k) ==> FromStorageKey(StorageKey(k)) == Err(InvalidRequest)
  {
    SplitKey(k);
    SplitNone(k.deployment, ':');
    SplitNone(k.run, ':');
    SplitNone(k.role, ':');
    ParseIntDecimal(k.rank);
    if k.ColonFree() {
      assert Split(StorageKey(k), ':') == ["ganker", k.deployment, k.run, k.role, Decimal(k.rank)];
    }
  }

  /** Two keys have one text exactly when their names, cut at every separator, are the same pieces in
      the same order, and their ranks agree. */
  lemma SameTextIff(a: RoleKey, b: RoleKey)
    requires a.Valid() && b.Valid()
    ensures StorageKey(a) == StorageKey(b) <==> Pieces(a) == Pieces(b) && a.rank == b.rank
  {
    var da, db := Decimal(a.rank), Decimal(b.rank);
    SplitKey(a);
    SplitKey(b);
    SplitInjective(StorageKey(a), StorageKey(b), ':');
    if StorageKey(a) == StorageKey(b) {
      var pa, pb := Pieces(a) + [da], Pieces(b) + [db];
      assert (["ganker"] + pa)[1..] == pa && (["ganker"] + pb)[1..] == pb;
      assert pa[..|pa| - 1] == Pieces(a) && pb[..|pb| - 1] == Pieces(b) && pa[|pa| - 1] == da && pb[|pb| - 1] == db;
      DecimalInjective(a.rank, b.rank);
    }
  }

  /** So for names without separators the text determines the key. */
  lemma ColonFreeKeysDiffer(a: RoleKey, b: RoleKey)
    requires a.Valid() && b.Valid() && a.ColonFree() && b.ColonFree()
    ensures StorageKey(a) == StorageKey(b) <==> a == b
  {
    RoundTripIff(a);
    RoundTripIff(b);
  }

  /** With separators in the names, different keys can share their text. */
  lemma KeysCollide(role: string, rank: nat)
    requires role != ""
    ensures var a, b := RoleKey("x:y", "z", role, rank), RoleKey("x", "y:z", role, rank);
      a != b && StorageKey(a) == StorageKey(b)
  {
    var tail := Join(role, ':', Decimal(rank));
    assert "x:y" + [':'] + ("z" + [':'] + tail) == "x" + [':'] + ("y:z" + [':'] + tail);
    assert Join("x:y", ':', Join("z", ':', tail)) == Join("x", ':', Join("y:z", ':', tail));
  }

  // ---------------------------------------------------------------- the prefix scan

  /** The pieces of the key's names begin with those of this deployment and run, and go on. */
  predicate Scanned(k: RoleKey, deployment: string, run: string)
    requires k.Valid()
  {
    var sought, pieces := Split(deployment, ':') + Split(run, ':'), Pieces(k);
    |sought| <= |pieces| && pieces[..|sought|] == sought
  }

  lemma SplitPrefix(deployment: string, run: string, rest: string)
    ensures Split(ScanPrefix(deployment, run) + rest, ':')
         == ["ganker"] + ((Split(deployment, ':') + Split(run, ':')) + Split(rest, ':'))
  {
    var tail := Join(run, ':', rest);
    assert ScanPrefix(deployment, run) + rest == Join("ganker", ':', Join(deployment, ':', tail));
    SplitJoin("ganker", ':', Join(deployment, ':', tail));
    SplitJoin(deployment, ':', tail);
    SplitJoin(run, ':', rest);
    SplitNone("ganker", ':');
    assert Split(deployment, ':') + (Split(run, ':') + Split(rest, ':'))
        == (Split(deployment, ':') + Split(run, ':')) + Split(rest, ':');
  }

  lemma FoundIsScanned(k: RoleKey, deployment: string, run: string)
    requires k.Valid() && StartsWith(StorageKey(k), ScanPrefix(deployment, run))
    ensures Scanned(k, deployment, run)
  {
    var key, prefix := StorageKey(k), ScanPrefix(deployment, run);
    var sought, all := Split(deployment, ':') + Split(run, ':'), Pieces(k) + [Decimal(k.rank)];
    var rest := key[|prefix|..];
    assert key == prefix + rest;
    SplitKey(k);
    SplitPrefix(deployment, run, rest);
    assert all == (["ganker"] + all)[1..] == sought + Split(rest, ':');
    assert all[..|sought|] == sought && Pieces(k)[..|sought|] == all[..|sought|];
  }

  lemma ScannedIsFound(k: RoleKey, deployment: string, run: string)
    requires k.Valid() && Scanned(k, deployment, run)
    ensures StartsWith(StorageKey(k), ScanPrefix(deployment, run))
  {
    var key, prefix := StorageKey(k), ScanPrefix(deployment, run);
    var sought, all := Split(deployment, ':') + Split(run, ':'), Pieces(k) + [Decimal(k.rank)];
    var rest := JoinAll(all[|sought|..], ':');
    SplitKey(k);
    RestSplits(k, all, |sought|);
    SplitPrefix(deployment, run, rest);
    assert all[..|sought|] == sought && all == sought + all[|sought|..];
    SplitInjective(key, prefix + rest, ':');
  }

  /** The scan of a deployment and run finds a key's text exactly when the pieces match. */
  lemma ScanIff(k: RoleKey, deployment: string, run: string)
    requires k.Valid()
    ensures StartsWith(StorageKey(k), ScanPrefix(deployment, run)) <==> Scanned(k, deployment, run)
  {
    if StartsWith(StorageKey(k), ScanPrefix(deployment, run)) { FoundIsScanned(k, deployment, run); }
    if Scanned(k, deployment, run) { ScannedIsFound(k, deployment, run); }
  }

  lemma RestSplits(k: RoleKey, all: seq<string>, from: nat)
    requires k.Valid() && all == Pieces(k) + [Decimal(k.rank)] && from < |all|
    ensures Split(JoinAll(all[from..], ':'), ':') == all[from..]
  {
    SplitKey(k);
    PartsAreFree(StorageKey(k), ':');
    forall i | 0 <= i < |all[from..]| ensures Without(all[from..][i], ':') {
      assert all[from..][i] == Split(StorageKey(k), ':')[1 + from + i];
    }
    SplitJoinAll(all[from..], ':');
  }

  /** For names without separators it finds exactly the keys of its deployment and run. */
  lemma ScanIsExact(k: RoleKey, deployment: string, run: string)
    requires k.Valid() && k.ColonFree() && Without(deployment, ':') && Without(run, ':')
    ensures Scanned(k, deployment, run) <==> k.deployment == deployment && k.run == run
  {
    SplitNone(k.deployment, ':');
    SplitNone(k.run, ':');
    SplitNone(k.role, ':');
    SplitNone(deployment, ':');
    SplitNone(run, ':');
    var sought, pieces := [deployment, run], [k.deployment, k.run, k.role];
    assert Pieces(k) == pieces && Split(deployment, ':') + Split(run, ':') == sought;
    assert pieces[..2] == [k.deployment, k.run];
    assert [k.deployment, k.run] == sought <==> k.deployment == deployment && k.run == run by {
      assert sought[0] == deployment && sought[1] == run;
    }
  }
}
