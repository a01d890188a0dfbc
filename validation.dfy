/** Referential validation of a Restore: each referenced object that the
    lister reports as not found adds one field error; any other lookup error
    aborts. Also the text of a validation error, which becomes the event
    message and the condition message. */
module Validation {
  import opened Wrappers

  /** field.NotFound(path, value). */
  datatype FieldError = FieldNotFound(path: string, value: string)

  /** The error Restore.Validate returns, or the aggregate of field errors. */
  datatype ValidationError = Invalid(message: string) | Aggregate(errs: seq<FieldError>)

  /** The outcome of a lister Get: the object, NotFound, or another error. */
  datatype Lookup = Found | NotFound | LookupError(err: string)

  /** A named reference at a field path, with what its lister returned. */
  datatype Reference = Reference(path: string, name: string, lookup: Lookup)

  predicate Failed(ref: Reference)
  {
    ref.lookup.LookupError?
  }

  /** Checks the references in order. The first lookup error that is not
      NotFound is returned as it is (see FirstFailureWins); otherwise the
      result lists one NotFound field error per missing reference, in order. */
  function CheckReferences(refs: seq<Reference>): (r: Result<seq<FieldError>, string>)
    ensures r.Err? <==> exists ref :: ref in refs && Failed(ref)
    ensures r.Ok? ==> |r.value| <= |refs|
    ensures r.Ok? ==> forall e :: e in r.value <==>
                        exists ref :: ref in refs && ref.lookup == NotFound && e == FieldNotFound(ref.path, ref.name)
  {
    if refs == [] then Ok([])
    else
      var ref := refs[0];
      match ref.lookup
      case LookupError(e) => assert Failed(ref); Err(e)
      case _ =>
        var rest := CheckReferences(refs[1..]);
        assert forall x :: x in refs <==> x == ref || x in refs[1..];
        match rest
        case Err(e) => rest
        case Ok(tail) =>
          if ref.lookup == NotFound then Ok([FieldNotFound(ref.path, ref.name)] + tail)
          else Ok(tail)
  }

  /** The first reference whose lookup failed decides the error. */
  lemma {:induction false} FirstFailureWins(refs: seq<Reference>, i: nat)
    requires i < |refs| && Failed(refs[i])
    requires forall j :: 0 <= j < i ==> !Failed(refs[j])
    ensures CheckReferences(refs) == Err(refs[i].lookup.err)
  {
    if i > 0 {
      assert !Failed(refs[0]);
      FirstFailureWins(refs[1..], i - 1);
    }
  }

  /** The references the listers reported as NotFound, in order. */
  function Missing(refs: seq<Reference>): (m: seq<Reference>)
    ensures |m| <= |refs|
    ensures forall ref :: ref in m <==> ref in refs && ref.lookup == NotFound
  {
    if refs == [] then []
    else if refs[0].lookup == NotFound then [refs[0]] + Missing(refs[1..])
    else Missing(refs[1..])
  }

  /** Without a lookup error, the field errors are exactly one NotFound per
      missing reference, at its path and naming it, in reference order. */
  lemma {:induction false} CheckReferencesInOrder(refs: seq<Reference>)
    requires forall ref :: ref in refs ==> !Failed(ref)
    ensures CheckReferences(refs).Ok?
    ensures var errs := CheckReferences(refs).value;
      && |errs| == |Missing(refs)|
      && forall i :: 0 <= i < |errs| ==> errs[i] == FieldNotFound(Missing(refs)[i].path, Missing(refs)[i].name)
  {
    if refs != [] {
      assert forall ref :: ref in refs[1..] ==> ref in refs;
      CheckReferencesInOrder(refs[1..]);
    }
  }

  /** The text of field.NotFound: it names the field path and the value
      that was not found. */
  function FieldErrorText(e: FieldError): (t: string)
    ensures Mentions(t, e.path) && Mentions(t, e.value)
  {
    var prefix := e.path + ": Not found: \"";
    var t := prefix + e.value + "\"";
    assert OccursAt(t, e.path, 0) by { assert t[0..|e.path|] == e.path; }
    assert OccursAt(t, e.value, |prefix|) by { assert t[|prefix|..|prefix| + |e.value|] == e.value; }
    t
  }

  function JoinErrors(errs: seq<FieldError>): string
    requires errs != []
  {
    if |errs| == 1 then FieldErrorText(errs[0])
    else FieldErrorText(errs[0]) + ", " + JoinErrors(errs[1..])
  }

  /** Error(): one field error alone, several in brackets. */
  function ErrorText(v: ValidationError): string
  {
    match v
    case Invalid(m) => m
    case Aggregate(errs) =>
      if |errs| == 1 then FieldErrorText(errs[0])
      else if errs == [] then "[]"
      else "[" + JoinErrors(errs) + "]"
  }

  predicate OccursAt(s: string, sub: string, i: int)
  {
    0 <= i && i + |sub| <= |s| && s[i..i + |sub|] == sub
  }

  /** s contains sub. */
  ghost predicate Mentions(s: string, sub: string)
  {
    exists i :: OccursAt(s, sub, i)
  }

  lemma MentionsLeft(a: string, b: string, sub: string)
    requires Mentions(a, sub)
    ensures Mentions(a + b, sub)
  {
    var i :| OccursAt(a, sub, i);
    assert (a + b)[i..i + |sub|] == a[i..i + |sub|];
    assert OccursAt(a + b, sub, i);
  }

  lemma MentionsRight(a: string, b: string, sub: string)
    requires Mentions(b, sub)
    ensures Mentions(a + b, sub)
  {
    var i :| OccursAt(b, sub, i);
    assert (a + b)[|a| + i..|a| + i + |sub|] == b[i..i + |sub|];
    assert OccursAt(a + b, sub, |a| + i);
  }

  lemma {:induction false} JoinMentionsEveryPath(errs: seq<FieldError>, e: FieldError)
    requires e in errs
    ensures Mentions(JoinErrors(errs), e.path)
  {
    var head := FieldErrorText(errs[0]);
    if errs[0] == e {
      if |errs| > 1 {
        MentionsLeft(head, ", " + JoinErrors(errs[1..]), e.path);
        assert JoinErrors(errs) == head + (", " + JoinErrors(errs[1..]));
      }
    } else {
      assert e in errs[1..];
      JoinMentionsEveryPath(errs[1..], e);
      MentionsRight(head + ", ", JoinErrors(errs[1..]), e.path);
    }
  }

  /** The text of an aggregate names the field path of every error in it. */
  lemma AggregateMentionsEveryPath(errs: seq<FieldError>, e: FieldError)
    requires e in errs
    ensures Mentions(ErrorText(Aggregate(errs)), e.path)
  {
    if |errs| == 1 {
    } else {
      JoinMentionsEveryPath(errs, e);
      MentionsRight("[", JoinErrors(errs), e.path);
      MentionsLeft("[" + JoinErrors(errs), "]", e.path);
    }
  }
}
