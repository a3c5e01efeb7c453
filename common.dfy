/** Values shared by every part of the model: optional values, directory
    listings and JSON scalars.  The filesystem is never touched: a directory
    listing is a sequence of entries passed in by the caller, and a JSON
    object read from disk is a map. */
module Common {

  datatype Option<T> = None | Some(value: T)

  /** One byte of a file's content. */
  newtype byte = x: int | 0 <= x < 256

  /** What `os.path.isfile` / `os.path.isdir` would say about an entry. */
  datatype Kind = File | Dir | Other

  /** One name returned by `os.listdir`, with its kind. */
  datatype Entry = Entry(name: string, kind: Kind)

  /** A JSON scalar as the program stores it: a string, or an integer
      (asset metadata stores "version": 1). */
  datatype Value = Str(s: string) | Num(n: int)

  /** A JSON object read from, or written to, a sidecar file. */
  type Json = map<string, Value>

  /** `data.get(key, "")` on a JSON object, when the value is a string;
      "" otherwise. */
  function StrField(file: Json, key: string): string
  {
    if key in file && file[key].Str? then file[key].s else ""
  }

  /** `os.path.join(dir, name)` with '/' as the separator. */
  function Join(dir: string, name: string): string
  {
    dir + "/" + name
  }

  /** Distinct names give distinct paths in the same folder. */
  lemma JoinInjective(dir: string, a: string, b: string)
    requires Join(dir, a) == Join(dir, b)
    ensures a == b
  {
    assert a == Join(dir, a)[|dir| + 1..];
    assert b == Join(dir, b)[|dir| + 1..];
  }

  /** The names of a listing, in listing order. */
  function Names(es: seq<Entry>): seq<string>
  {
    seq(|es|, i requires 0 <= i < |es| => es[i].name)
  }

  /** The parts joined end to end, as a loop that extends a list would. */
  function Concat<T>(parts: seq<seq<T>>): seq<T>
  {
    if parts == [] then [] else Concat(parts[..|parts| - 1]) + parts[|parts| - 1]
  }

  /** Joining one more part appends it. */
  lemma ConcatStep<T>(parts: seq<seq<T>>, i: nat)
    requires i < |parts|
    ensures Concat(parts[..i + 1]) == Concat(parts[..i]) + parts[i]
  {
    assert parts[..i + 1][..i] == parts[..i];
  }

  /** An element of the joined list comes from some part, and every
      element of every part is in it. */
  lemma {:induction false} ConcatMember<T>(parts: seq<seq<T>>, x: T)
    ensures x in Concat(parts) <==> exists i :: 0 <= i < |parts| && x in parts[i]
  {
    if parts != [] {
      var n := |parts| - 1;
      ConcatMember(parts[..n], x);
      assert forall i :: 0 <= i < n ==> parts[..n][i] == parts[i];
    }
  }

  /** Parts of at most one element each join to a list no longer than the
      number of parts. */
  lemma {:induction false} ConcatShort<T>(parts: seq<seq<T>>)
    requires forall i :: 0 <= i < |parts| ==> |parts[i]| <= 1
    ensures |Concat(parts)| <= |parts|
  {
    if parts != [] {
      var n := |parts| - 1;
      assert forall i :: 0 <= i < n ==> parts[..n][i] == parts[i];
      ConcatShort(parts[..n]);
    }
  }

  /** `[f(x) for x in s if keep(x)]` */
  function MapIf<T, U>(s: seq<T>, keep: T -> bool, f: T -> U): seq<U>
  {
    if s == [] then [] else MapIf(s[..|s| - 1], keep, f) + (if keep(s[|s| - 1]) then [f(s[|s| - 1])] else [])
  }

  /** What the comprehension holds is the image of some kept element. */
  lemma {:induction false} MapIfMembers<T, U>(s: seq<T>, keep: T -> bool, f: T -> U, y: U)
    ensures y in MapIf(s, keep, f) <==> exists i :: 0 <= i < |s| && keep(s[i]) && f(s[i]) == y
  {
    if s != [] {
      var n := |s| - 1;
      MapIfMembers(s[..n], keep, f, y);
      assert forall i :: 0 <= i < n ==> s[..n][i] == s[i];
    }
  }

  /** `max(s)` of a non-empty list. */
  function Max(s: seq<nat>): (m: nat)
    requires s != []
    ensures m in s && forall i :: 0 <= i < |s| ==> s[i] <= m
  {
    if |s| == 1 then s[0]
    else
      var m := Max(s[..|s| - 1]);
      assert forall i :: 0 <= i < |s| - 1 ==> s[..|s| - 1][i] == s[i];
      if s[|s| - 1] > m then s[|s| - 1] else m
  }

  /** The maximum of a list grown by one element. */
  lemma MaxAppend(s: seq<nat>, x: nat)
    ensures Max(s + [x]) == if s == [] || x > Max(s) then x else Max(s)
  {
    assert (s + [x])[..|s|] == s;
  }
}
