/**
 * Shared vocabulary of the backend model: optional request fields with
 * JavaScript truthiness, identifiers, HTTP error responses and results.
 */
module Common {

  datatype Option<+T> = None | Some(value: T)

  datatype Result<+T, +E> = Ok(value: T) | Err(error: E)

  /** A MongoDB ObjectId in its string form, as routes receive and compare them. */
  type Id = string

  type Byte = x: int | 0 <= x < 256

  /** An error response: the HTTP status code and the `message` of the JSON envelope. */
  datatype HttpError = HttpError(code: nat, message: string)

  const SERVER_ERROR := HttpError(500, "Server error")

  /**
   * JavaScript truthiness of a string-valued request field:
   * an absent field, `null` and the empty string are all falsy.
   */
  predicate Truthy(field: Option<string>)
  {
    field.Some? && field.value != ""
  }

  /** `a || b` where both sides are optional strings. */
  function Or(a: Option<string>, b: Option<string>): Option<string>
  {
    if Truthy(a) then a else b
  }

  /**
   * The outcome of `new Date(s)` for a truthy request string `s`:
   * either an Invalid Date (NaN time) or a time in milliseconds.
   */
  datatype DateInput = InvalidDate | ValidDate(millis: int)

  /**
   * `${req.protocol}://${req.get('host')}/uploads/<folder>/${req.file.filename}`:
   * the public URL of a file the disk storage saved in `folder`.
   */
  function UploadUrl(protocol: string, host: string, folder: string, filename: string): (url: string)
    ensures |url| >= |protocol| + |folder| + |filename|
    ensures url[..|protocol|] == protocol
    ensures url[|url| - |filename|..] == filename
  {
    protocol + "://" + host + "/uploads/" + folder + "/" + filename
  }

  /** Two stored files in one folder have different URLs. */
  lemma UploadUrlDistinct(protocol: string, host: string, folder: string, f1: string, f2: string)
    requires f1 != f2
    ensures UploadUrl(protocol, host, folder, f1) != UploadUrl(protocol, host, folder, f2)
  {
    var prefix := protocol + "://" + host + "/uploads/" + folder + "/";
    assert UploadUrl(protocol, host, folder, f1) == prefix + f1;
    assert UploadUrl(protocol, host, folder, f2) == prefix + f2;
  }

  /**
   * `Model.findById(id)` on a collection in insertion order: the position of
   * the document whose id, as `idOf` reads it, is `id`.
   */
  function PositionOf<T>(docs: seq<T>, idOf: T -> Id, id: Id): (r: Option<nat>)
    ensures r.Some? ==> r.value < |docs| && idOf(docs[r.value]) == id
    ensures r.None? ==> forall j :: 0 <= j < |docs| ==> idOf(docs[j]) != id
  {
    if docs == [] then None
    else if idOf(docs[0]) == id then Some(0)
    else match PositionOf(docs[1..], idOf, id)
      case None => None
      case Some(i) => Some(i + 1)
  }

  /** A sequence without repetitions. */
  predicate Distinct<T(==)>(s: seq<T>)
  {
    forall i, j :: 0 <= i < j < |s| ==> s[i] != s[j]
  }

  lemma DistinctCons<T>(x: T, s: seq<T>)
    ensures Distinct([x] + s) <==> x !in s && Distinct(s)
  {
    if Distinct([x] + s) {
      forall k | 0 <= k < |s|
        ensures s[k] != x
      {
        assert ([x] + s)[0] == x && s[k] == ([x] + s)[k + 1];
      }
      forall i, j | 0 <= i < j < |s|
        ensures s[i] != s[j]
      {
        assert s[i] == ([x] + s)[i + 1] && s[j] == ([x] + s)[j + 1];
      }
    }
    if x !in s && Distinct(s) {
      forall i, j | 0 <= i < j < |[x] + s|
        ensures ([x] + s)[i] != ([x] + s)[j]
      {
        if i == 0 {
          assert ([x] + s)[j] == s[j - 1];
        } else {
          assert ([x] + s)[i] == s[i - 1] && ([x] + s)[j] == s[j - 1];
        }
      }
    }
  }

  lemma Associative<T>(a: seq<T>, b: seq<T>, c: seq<T>)
    ensures (a + b) + c == a + (b + c)
  {
  }

  lemma DistinctSnoc<T>(s: seq<T>, x: T)
    requires Distinct(s) && x !in s
    ensures Distinct(s + [x])
  {
  }

  /** Mongoose `array.pull(x)`: every occurrence of `x` removed, the rest kept in order. */
  function Pull<T(==,!new)>(s: seq<T>, x: T): (r: seq<T>)
    ensures x !in r
    ensures forall y :: y != x ==> (y in r <==> y in s)
    ensures multiset(r) == multiset(s)[x := 0]
    ensures |r| <= |s|
  {
    if s == [] then []
    else
      assert s == [s[0]] + s[1..];
      if s[0] == x then Pull(s[1..], x)
      else [s[0]] + Pull(s[1..], x)
  }

  lemma {:induction false} PullAbsent<T(!new)>(s: seq<T>, x: T)
    requires x !in s
    ensures Pull(s, x) == s
  {
    if s != [] {
      PullAbsent(s[1..], x);
    }
  }

  lemma {:induction false} PullKeepsDistinct<T(!new)>(s: seq<T>, x: T)
    requires Distinct(s)
    ensures Distinct(Pull(s, x))
  {
    if s != [] {
      PullKeepsDistinct(s[1..], x);
      var r := Pull(s[1..], x);
      if s[0] != x {
        assert s[0] !in r;
        forall i, j | 0 <= i < j < |[s[0]] + r|
          ensures ([s[0]] + r)[i] != ([s[0]] + r)[j]
        {
          if i == 0 {
            assert ([s[0]] + r)[j] == r[j - 1];
          }
        }
      }
    }
  }
}
