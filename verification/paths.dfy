/** pathlib's POSIX paths: a root of no, one or two slashes and a list of components, from which empty
    ones and "." are dropped. Joining a text that starts with a slash starts over. */
module Paths {
  import opened Text
  import opened Splitting

  datatype Path = Path(slashes: nat, parts: seq<string>)

  predicate Absolute(text: string) {
    text != [] && text[0] == '/'
  }

  /** One leading slash, or three and more, make the root "/"; exactly two are kept. */
  function Slashes(text: string): nat {
    if !Absolute(text) then 0
    else if |text| > 1 && text[1] == '/' && !(|text| > 2 && text[2] == '/') then 2
    else 1
  }

  function Kept(parts: seq<string>): seq<string> {
    if parts == [] then []
    else if parts[0] == "" || parts[0] == "." then Kept(parts[1..])
    else [parts[0]] + Kept(parts[1..])
  }

  function Components(text: string): seq<string> {
    Kept(Split(text, '/'))
  }

  /** Path(text). */
  function Parse(text: string): Path {
    Path(Slashes(text), Components(text))
  }

  /** path / text. */
  function Joined(path: Path, text: string): Path {
    if Absolute(text) then Parse(text) else Path(path.slashes, path.parts + Components(text))
  }

  /** str(path). */
  function Show(path: Path): string {
    if path.slashes == 0 && path.parts == [] then "."
    else (if path.slashes == 0 then "" else if path.slashes == 1 then "/" else "//") + JoinAll(path.parts, '/')
  }

  /** A text that is one component of a path: no slash, not empty, and neither "." nor "..". */
  predicate Plain(text: string) {
    text != "" && text != "." && text != ".." && forall i :: 0 <= i < |text| ==> text[i] != '/'
  }

  ghost predicate IsComponent(part: string) {
    part != "" && part != "." && Without(part, '/')
  }

  ghost predicate Normal(path: Path) {
    path.slashes <= 2 && forall i :: 0 <= i < |path.parts| ==> IsComponent(path.parts[i])
  }

  lemma {:induction false} KeptAreComponents(parts: seq<string>)
    requires forall i :: 0 <= i < |parts| ==> Without(parts[i], '/')
    ensures forall i :: 0 <= i < |Kept(parts)| ==> IsComponent(Kept(parts)[i])
  {
    if parts != [] { KeptAreComponents(parts[1..]); }
  }

  lemma {:induction false} KeepsComponents(parts: seq<string>)
    requires forall i :: 0 <= i < |parts| ==> IsComponent(parts[i])
    ensures Kept(parts) == parts
  {
    if parts != [] { KeepsComponents(parts[1..]); }
  }

  lemma {:induction false} KeptAppend(a: seq<string>, b: seq<string>)
    ensures Kept(a + b) == Kept(a) + Kept(b)
  {
    if a == [] {
      assert a + b == b;
    } else {
      assert (a + b)[1..] == a[1..] + b;
      KeptAppend(a[1..], b);
    }
  }

  lemma ParseIsNormal(text: string)
    ensures Normal(Parse(text))
  {
    PartsAreFree(text, '/');
    KeptAreComponents(Split(text, '/'));
  }

  lemma JoinedIsNormal(path: Path, text: string)
    requires Normal(path)
    ensures Normal(Joined(path, text))
  {
    ParseIsNormal(text);
  }

  lemma PlainIsItself(text: string)
    requires Plain(text)
    ensures Components(text) == [text] && !Absolute(text)
  {
    SplitNone(text, '/');
    KeepsComponents([text]);
  }

  /** A slash in front of, or inside, a text only separates. */
  lemma SlashSeparates(a: string, b: string)
    ensures Components(Join(a, '/', b)) == Components(a) + Components(b)
  {
    SplitJoin(a, '/', b);
    KeptAppend(Split(a, '/'), Split(b, '/'));
  }

  lemma JoinedComponents(parts: seq<string>)
    requires forall i :: 0 <= i < |parts| ==> IsComponent(parts[i])
    ensures Components(JoinAll(parts, '/')) == parts && !Absolute(JoinAll(parts, '/'))
  {
    if parts != [] {
      SplitJoinAll(parts, '/');
      KeepsComponents(parts);
      assert JoinAll(parts, '/')[0] == parts[0][0];
    }
  }

  /** Writing a path as text and reading it back gives the path. */
  lemma ParseShow(path: Path)
    requires Normal(path)
    ensures Parse(Show(path)) == path
  {
    var body := JoinAll(path.parts, '/');
    JoinedComponents(path.parts);
    if path.slashes == 1 {
      SlashSeparates("", body);
      assert Join("", '/', body) == "/" + body;
    } else if path.slashes == 2 {
      SlashSeparates("", body);
      SlashSeparates("", "/" + body);
      assert Join("", '/', body) == "/" + body && Join("", '/', "/" + body) == "//" + body;
    } else if path.parts == [] {
      SplitNone(".", '/');
    } else {
      assert "" + body == body;
    }
  }
}
