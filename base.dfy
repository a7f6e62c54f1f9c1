/**
 * Values shared by every screen of the client: optional JSON fields, the
 * signed-in identity, outgoing requests, and the order-preserving list
 * operations the screens apply to their working sets.
 */
module Base {

  datatype Option<T> = None | Some(value: T)

  /** JavaScript truthiness of a nullable string: null, undefined and "" are falsy. */
  predicate Truthy(o: Option<string>) {
    o.Some? && o.value != ""
  }

  /** The expression `o || ''`. */
  function OrEmpty(o: Option<string>): string {
    if Truthy(o) then o.value else ""
  }

  /** The identity held by the session store: `{ userId, username, role }`. */
  datatype User = User(userId: string, username: string, role: string)

  /** A JSON value the client sends; `ParsedFloat(t)` stands for `parseFloat(t)`, kept symbolic. */
  datatype Json = Str(s: string) | ParsedFloat(text: string)

  datatype Verb = Get | Post | Put | Patch | Delete

  /** One HTTP request through the API client; the base origin and the bearer header are not modelled. */
  datatype Request = Request(verb: Verb, url: string, body: map<string, Json>)

  /** The outcome of a request, as the screen's `try`/`catch` sees it. */
  datatype Reply<T> = Ok(data: T) | Failed

  /** A form's state: a JavaScript object from field name to the input's text. */
  type Form = map<string, string>

  /** A form sent as a JSON body, each value a string. */
  function AsBody(form: Form): (body: map<string, Json>)
    ensures body.Keys == form.Keys
    ensures forall k :: k in form ==> body[k] == Str(form[k])
  {
    map k | k in form :: Str(form[k])
  }

  /** One input event: the input's name and the typed text. */
  datatype Input = Input(key: string, value: string)

  /** The form after a run of input events, each writing only its own key. */
  function ApplyInputs(form: Form, inputs: seq<Input>): Form
    decreases |inputs|
  {
    if inputs == [] then form
    else ApplyInputs(form[inputs[0].key := inputs[0].value], inputs[1..])
  }

  /**
   * A field that no input of the run names keeps its value, and a run over
   * fields the form already has adds none.
   */
  lemma {:induction false} InputsKeepField(form: Form, inputs: seq<Input>, field: string)
    requires field in form
    requires forall i :: 0 <= i < |inputs| ==> inputs[i].key != field
    ensures field in ApplyInputs(form, inputs)
    ensures ApplyInputs(form, inputs)[field] == form[field]
    ensures (forall i :: 0 <= i < |inputs| ==> inputs[i].key in form) ==> ApplyInputs(form, inputs).Keys == form.Keys
    decreases |inputs|
  {
    if inputs != [] {
      var next := form[inputs[0].key := inputs[0].value];
      assert forall i :: 0 <= i < |inputs[1..]| ==> inputs[1..][i] == inputs[i + 1];
      InputsKeepField(next, inputs[1..], field);
      if forall i :: 0 <= i < |inputs| ==> inputs[i].key in form {
        assert next.Keys == form.Keys;
      }
    }
  }

  /** `a` is obtained from `b` by deleting elements, keeping the order of the rest. */
  predicate IsSubsequence<T(==)>(a: seq<T>, b: seq<T>)
    decreases |b|
  {
    if a == [] then true
    else if b == [] then false
    else if a[0] == b[0] then IsSubsequence(a[1..], b[1..])
    else IsSubsequence(a, b[1..])
  }

  lemma {:induction false} SubsequenceReflexive<T>(s: seq<T>)
    ensures IsSubsequence(s, s)
    decreases |s|
  {
    if s != [] {
      SubsequenceReflexive(s[1..]);
    }
  }

  /** The array method `s.filter(p)`. */
  function Filter<T(==)>(s: seq<T>, p: T -> bool): (r: seq<T>)
    ensures |r| <= |s|
    ensures forall i :: 0 <= i < |r| ==> r[i] in s && p(r[i])
    ensures forall i :: 0 <= i < |s| && p(s[i]) ==> s[i] in r
    ensures IsSubsequence(r, s)
    ensures (forall i :: 0 <= i < |s| ==> p(s[i])) ==> r == s
    decreases |s|
  {
    if s == [] then []
    else if p(s[0]) then [s[0]] + Filter(s[1..], p)
    else Filter(s[1..], p)
  }

  /** The predicate `x => idOf(x) !== id` of every optimistic delete. */
  function IdIsNot<T>(idOf: T -> string, id: string): T -> bool {
    x => idOf(x) != id
  }

  /** `s.filter(x => x.id !== id)`: the working set after a confirmed, successful delete. */
  function RemoveId<T(==,!new)>(s: seq<T>, idOf: T -> string, id: string): (r: seq<T>)
    ensures forall i :: 0 <= i < |r| ==> r[i] in s && idOf(r[i]) != id
    ensures forall i :: 0 <= i < |s| && idOf(s[i]) != id ==> s[i] in r
    ensures IsSubsequence(r, s)
    ensures (forall i :: 0 <= i < |s| ==> idOf(s[i]) != id) ==> r == s
    ensures forall x {:trigger multiset(r)[x]} :: multiset(r)[x] == if idOf(x) != id then multiset(s)[x] else 0
  {
    assert forall x :: multiset(Filter(s, IdIsNot(idOf, id)))[x]
                       == (if IdIsNot(idOf, id)(x) then multiset(s)[x] else 0) by {
      forall x { FilterCount(s, IdIsNot(idOf, id), x); }
    }
    Filter(s, IdIsNot(idOf, id))
  }

  /** Two filters applied one after the other give the same list in either order. */
  lemma {:induction false} FilterCommutes<T>(s: seq<T>, p: T -> bool, q: T -> bool)
    ensures Filter(Filter(s, p), q) == Filter(Filter(s, q), p)
    decreases |s|
  {
    if s != [] {
      FilterCommutes(s[1..], p, q);
      var t := s[1..];
      if p(s[0]) {
        assert Filter(s, p) == [s[0]] + Filter(t, p);
        assert ([s[0]] + Filter(t, p))[1..] == Filter(t, p);
      } else {
        assert Filter(s, p) == Filter(t, p);
      }
      if q(s[0]) {
        assert Filter(s, q) == [s[0]] + Filter(t, q);
        assert ([s[0]] + Filter(t, q))[1..] == Filter(t, q);
      } else {
        assert Filter(s, q) == Filter(t, q);
      }
    }
  }

  /** Deleting by id commutes with any search filter over the same list. */
  lemma RemoveIdCommutesWithFilter<T(!new)>(s: seq<T>, idOf: T -> string, id: string, p: T -> bool)
    ensures RemoveId(Filter(s, p), idOf, id) == Filter(RemoveId(s, idOf, id), p)
  {
    FilterCommutes(s, p, IdIsNot(idOf, id));
  }

  /** A filter keeps every element that satisfies the predicate, with its multiplicity. */
  lemma {:induction false} FilterCount<T>(s: seq<T>, p: T -> bool, x: T)
    ensures multiset(Filter(s, p))[x] == if p(x) then multiset(s)[x] else 0
    decreases |s|
  {
    if s != [] {
      FilterCount(s[1..], p, x);
      assert s == [s[0]] + s[1..];
      assert multiset(s) == multiset([s[0]]) + multiset(s[1..]);
      if p(s[0]) {
        assert multiset(Filter(s, p)) == multiset([s[0]]) + multiset(Filter(s[1..], p));
      }
    }
  }
}
