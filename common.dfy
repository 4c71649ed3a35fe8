/** Values shared by the fetch client and both sink pipelines: lifelog records
    as the upstream JSON carries them, environment lookup, sink replies, and
    order-preserving subsequences. */
module Common {

  datatype Option<T> = None | Some(value: T)

  /** One lifelog as the upstream API returns it. A field is None when its
      key is absent from the JSON object. */
  datatype Lifelog = Lifelog(
    id: Option<string>,
    title: Option<string>,
    markdown: Option<string>,
    startTime: Option<string>,
    endTime: Option<string>)

  /** Title used by both sinks when a lifelog has no "title" key. */
  const Untitled := "Untitled conversation"

  /** Python truthiness of an optional string: present and not empty. */
  predicate Truthy(v: Option<string>)
  {
    v.Some? && v.value != ""
  }

  /** `record.get(key, default)` */
  function GetOr(v: Option<string>, default: string): string
  {
    match v
    case Some(s) => s
    case None => default
  }

  /** What the body of a sink's reply parses to: not JSON at all, a JSON
      object, or JSON of another kind (an array, a string, a number). */
  datatype Body = NotJson | JsonObject | OtherJson

  /** The reply a sink gives to one POST: a status and its body, or an
      exception raised by the HTTP library. */
  datatype PostReply = Answer(status: int, body: Body) | PostRaised

  /** `os.getenv(name)` over an explicit environment. */
  function Getenv(env: map<string, string>, name: string): Option<string>
  {
    if name in env then Some(env[name]) else None
  }

  /** The names among `names` whose variable is unset or empty, in order
      (the `missing_vars` comprehension of both pipelines' `main`). */
  function MissingVars(env: map<string, string>, names: seq<string>): (missing: seq<string>)
    ensures |missing| <= |names|
    ensures forall n :: n in missing <==> n in names && !Truthy(Getenv(env, n))
  {
    if names == [] then []
    else (if Truthy(Getenv(env, names[0])) then [] else [names[0]]) + MissingVars(env, names[1..])
  }

  function Last<T>(s: seq<T>): T
    requires s != []
  {
    s[|s| - 1]
  }

  function Init<T>(s: seq<T>): seq<T>
    requires s != []
  {
    s[..|s| - 1]
  }

  /** `a` is `b` with some elements removed and the rest kept in order. */
  ghost predicate IsSubsequence<T>(a: seq<T>, b: seq<T>)
    decreases |b|
  {
    if a == [] then true
    else if b == [] then false
    else (Last(a) == Last(b) && IsSubsequence(Init(a), Init(b))) || IsSubsequence(a, Init(b))
  }

  /** A prefix is a subsequence; in particular every sequence is one of itself. */
  lemma {:induction false} PrefixIsSubsequence<T>(a: seq<T>, b: seq<T>)
    requires a <= b
    ensures IsSubsequence(a, b)
    decreases |b|
  {
    if a == [] {
    } else if |a| == |b| {
      assert Init(a) <= Init(b);
      PrefixIsSubsequence(Init(a), Init(b));
    } else {
      assert a <= Init(b);
      PrefixIsSubsequence(a, Init(b));
    }
  }

  /** The concatenation of `parts`, in order. */
  function Concat<T>(parts: seq<seq<T>>): seq<T>
  {
    if parts == [] then [] else Concat(Init(parts)) + Last(parts)
  }

  lemma ConcatAssoc<T>(a: seq<T>, b: seq<T>, c: seq<T>)
    ensures a + (b + c) == (a + b) + c
  {
  }

  lemma ConcatSingle<T>(p: seq<T>)
    ensures Concat([p]) == p
  {
    assert Init([p]) == [];
  }

  lemma ConcatSnoc<T>(s: seq<seq<T>>, x: seq<T>)
    ensures Concat(s + [x]) == Concat(s) + x
  {
    assert Init(s + [x]) == s && Last(s + [x]) == x;
  }

  lemma {:induction false} ConcatAppend<T>(a: seq<seq<T>>, b: seq<seq<T>>)
    ensures Concat(a + b) == Concat(a) + Concat(b)
    decreases |b|
  {
    if b == [] {
      assert a + b == a;
    } else {
      var init, x := Init(b), Last(b);
      assert b == init + [x];
      assert a + b == (a + init) + [x];
      ConcatSnoc(a + init, x);
      ConcatSnoc(init, x);
      ConcatAppend(a, init);
      assert (Concat(a) + Concat(init)) + x == Concat(a) + (Concat(init) + x);
    }
  }
}
