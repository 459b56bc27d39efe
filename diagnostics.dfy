/**
 * The diagnostics accumulator the provider writes into (`resp.Diagnostics`):
 * an ordered collection in which appending skips a diagnostic already held,
 * and which "has an error" when any member has error severity. The message a
 * diagnostic carries is left as a type parameter.
 */
module Diagnostics {
  import opened Wrappers

  datatype Severity = Error | Warning

  /**
   * A user-facing diagnostic. An attribute diagnostic carries the path of the
   * attribute it is about; a plain one has `path == None`.
   */
  datatype Diagnostic<M> = Diagnostic(severity: Severity, path: Option<string>, message: M)

  /** The collection holds at least one error (warnings do not count). */
  predicate HasErrors<M>(ds: seq<Diagnostic<M>>) {
    exists i :: 0 <= i < |ds| && ds[i].severity == Error
  }

  predicate AllErrors<M>(ds: seq<Diagnostic<M>>) {
    forall i :: 0 <= i < |ds| ==> ds[i].severity == Error
  }

  predicate NoDuplicates<M(==)>(ds: seq<Diagnostic<M>>) {
    forall i, j :: 0 <= i < j < |ds| ==> ds[i] != ds[j]
  }

  /**
   * Appending `incoming` one diagnostic at a time, skipping each one that is
   * already in the collection: the accumulator only grows, by at most what
   * was offered, and keeps its old contents as a prefix.
   */
  function AppendAll<M(==)>(acc: seq<Diagnostic<M>>, incoming: seq<Diagnostic<M>>): (r: seq<Diagnostic<M>>)
    ensures |acc| <= |r| <= |acc| + |incoming|
    ensures r[..|acc|] == acc
    decreases |incoming|
  {
    if incoming == [] then acc
    else
      var next := if incoming[0] in acc then acc else acc + [incoming[0]];
      var r := AppendAll(next, incoming[1..]);
      assert r[..|acc|] == next[..|acc|];
      r
  }

  /** Appending loses nothing offered and gains nothing that was not offered. */
  lemma {:induction false} AppendAllMembers<M>(acc: seq<Diagnostic<M>>, incoming: seq<Diagnostic<M>>)
    ensures var r := AppendAll(acc, incoming);
      && (forall i :: 0 <= i < |acc| ==> acc[i] in r)
      && (forall i :: 0 <= i < |incoming| ==> incoming[i] in r)
      && (forall i :: 0 <= i < |r| ==> r[i] in acc || r[i] in incoming)
    decreases |incoming|
  {
    var r := AppendAll(acc, incoming);
    if incoming == [] {
      assert r == acc;
    } else {
      var rest := incoming[1..];
      var next := if incoming[0] in acc then acc else acc + [incoming[0]];
      assert r == AppendAll(next, rest);
      AppendAllMembers(next, rest);
      assert incoming[0] in next;
      forall i | 0 <= i < |acc| ensures acc[i] in r {
        assert acc[i] == next[i];
      }
      forall i | 0 <= i < |incoming| ensures incoming[i] in r {
        if i > 0 {
          assert incoming[i] == rest[i - 1];
        } else {
          var k :| 0 <= k < |next| && next[k] == incoming[0];
        }
      }
      forall i | 0 <= i < |r| ensures r[i] in acc || r[i] in incoming {
        if r[i] in next {
          var k :| 0 <= k < |next| && next[k] == r[i];
          if k == |acc| {
            assert r[i] == incoming[0];
          }
        } else {
          var k :| 0 <= k < |rest| && rest[k] == r[i];
          assert r[i] == incoming[k + 1];
        }
      }
    }
  }

  /** Appending never introduces a duplicate into a collection that had none. */
  lemma {:induction false} AppendAllNoDuplicates<M>(acc: seq<Diagnostic<M>>, incoming: seq<Diagnostic<M>>)
    requires NoDuplicates(acc)
    ensures NoDuplicates(AppendAll(acc, incoming))
    decreases |incoming|
  {
    if incoming != [] {
      var x := incoming[0];
      if x in acc {
        AppendAllNoDuplicates(acc, incoming[1..]);
      } else {
        var next := acc + [x];
        forall i, j | 0 <= i < j < |next| ensures next[i] != next[j] {
          if j == |acc| {
            assert next[i] == acc[i];
          }
        }
        AppendAllNoDuplicates(next, incoming[1..]);
      }
    }
  }

  /** An accumulator has an error after an append exactly when it or what was offered had one. */
  lemma AppendAllHasErrors<M>(acc: seq<Diagnostic<M>>, incoming: seq<Diagnostic<M>>)
    ensures HasErrors(AppendAll(acc, incoming)) <==> HasErrors(acc) || HasErrors(incoming)
  {
    var r := AppendAll(acc, incoming);
    AppendAllMembers(acc, incoming);
    if HasErrors(acc) {
      var i :| 0 <= i < |acc| && acc[i].severity == Error;
      assert r[i] == acc[i];
    } else if HasErrors(incoming) {
      var i :| 0 <= i < |incoming| && incoming[i].severity == Error;
      var k :| 0 <= k < |r| && r[k] == incoming[i];
    }
    if HasErrors(r) {
      var i :| 0 <= i < |r| && r[i].severity == Error;
      if r[i] in acc {
        var k :| 0 <= k < |acc| && acc[k] == r[i];
      } else {
        var k :| 0 <= k < |incoming| && incoming[k] == r[i];
      }
    }
  }
}
