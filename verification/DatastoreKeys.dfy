/**
 `datastore.NewKey`: record keys are absolute paths in cleaned form, so one
 record answers to many spellings of its id.
 */
module DatastoreKeys {
  import opened Decimal
  import opened Strings

  /** Path cleaning under the root: empty and "." segments vanish, ".." removes the segment before it. */
  function Resolve(segments: seq<string>, stack: seq<string>): (r: seq<string>)
    requires forall i :: 0 <= i < |segments| ==> Lacks(segments[i], '/')
    requires forall i :: 0 <= i < |stack| ==> Lacks(stack[i], '/')
    ensures forall i :: 0 <= i < |r| ==> Lacks(r[i], '/')
  {
    if segments == [] then stack
    else if segments[0] == "" || segments[0] == "." then Resolve(segments[1..], stack)
    else if segments[0] == ".." then Resolve(segments[1..], if stack == [] then [] else stack[..|stack| - 1])
    else Resolve(segments[1..], stack + [segments[0]])
  }

  function NewKey(id: string): (key: string)
    ensures key != "" && key[0] == '/'
  {
    "/" + Join(Resolve(Split(id, '/'), []), '/')
  }

  predicate Plain(segment: string) { segment != "" && segment != "." && segment != ".." }

  predicate AllPlain(segments: seq<string>) { forall i :: 0 <= i < |segments| ==> Lacks(segments[i], '/') && Plain(segments[i]) }

  /** Plain segments stay as they are, and nothing else is left. */
  lemma {:induction false} ResolvePlain(segments: seq<string>, stack: seq<string>)
    requires AllPlain(segments) && AllPlain(stack)
    ensures Resolve(segments, stack) == stack + segments
  {
    if segments == [] {
    } else {
      ResolvePlain(segments[1..], stack + [segments[0]]);
      assert stack + [segments[0]] + segments[1..] == stack + segments;
    }
  }

  lemma {:induction false} ResolvedIsPlain(segments: seq<string>, stack: seq<string>)
    requires (forall i :: 0 <= i < |segments| ==> Lacks(segments[i], '/')) && AllPlain(stack)
    ensures AllPlain(Resolve(segments, stack))
  {
    if segments == [] {
    } else if segments[0] == "" || segments[0] == "." {
      ResolvedIsPlain(segments[1..], stack);
    } else if segments[0] == ".." {
      ResolvedIsPlain(segments[1..], if stack == [] then [] else stack[..|stack| - 1]);
    } else {
      ResolvedIsPlain(segments[1..], stack + [segments[0]]);
    }
  }

  /** A segment and the ".." after it cancel, wherever they stand. */
  lemma {:induction false} ParentCancels(before: seq<string>, segment: string, after: seq<string>, stack: seq<string>)
    requires forall i :: 0 <= i < |before| ==> Lacks(before[i], '/')
    requires forall i :: 0 <= i < |after| ==> Lacks(after[i], '/')
    requires Lacks(segment, '/') && Plain(segment) && AllPlain(stack)
    ensures Resolve(before + [segment, ".."] + after, stack) == Resolve(before + after, stack)
  {
    var long, short := before + [segment, ".."] + after, before + after;
    if before == [] {
      assert long[1..] == [".."] + after && long[1..][1..] == after && short == after;
      assert (stack + [segment])[..|stack|] == stack;
    } else {
      assert long[1..] == before[1..] + [segment, ".."] + after && short[1..] == before[1..] + after;
      var next :=
        if before[0] == "" || before[0] == "." then stack
        else if before[0] == ".." then if stack == [] then [] else stack[..|stack| - 1]
        else stack + [before[0]];
      ParentCancels(before[1..], segment, after, next);
    }
  }

  /** A key is its own key: cleaning is done once and for all. */
  lemma KeyIsClean(id: string)
    ensures NewKey(NewKey(id)) == NewKey(id)
  {
    var segments := Resolve(Split(id, '/'), []);
    ResolvedIsPlain(Split(id, '/'), []);
    SplitAt("", '/', Join(segments, '/'));
    assert "" + ['/'] + Join(segments, '/') == NewKey(id);
    if segments == [] {
      assert Split("", '/') == [""];
      assert Split(NewKey(id), '/') == ["", ""];
      assert Split(NewKey(id), '/')[1..] == [""];
    } else {
      SplitJoin(segments, '/');
      assert Split(NewKey(id), '/')[1..] == segments;
      ResolvePlain(segments, []);
      assert [] + segments == segments;
    }
  }

  /** `removeLeadingSlash`. */
  function RemoveLeadingSlash(key: string): string
    requires key != ""
  {
    if key[0] == '/' then key[1..] else key
  }

  /** The keys the manager writes: a slash and a text that parses as a database id. */
  predicate IsRecordKey(key: string) {
    key != "" && key[0] == '/' && ParseUint(key[1..]).Some?
  }

  /** The key of an id without a slash is that id, except for the three path words. */
  lemma PlainKey(id: string)
    requires Lacks(id, '/')
    ensures NewKey(id) == if id == "" || id == "." || id == ".." then "/" else "/" + id
  {
    SplitLacking(id, '/');
    assert [id][1..] == [];
    assert [] + [id] == [id];
    if id == "" || id == "." || id == ".." {
      assert Resolve([id], []) == Resolve([], []) == [];
      assert "/" + "" == "/";
    } else {
      assert Resolve([id], []) == Resolve([], [id]) == [id];
    }
  }

  /** Database ids are stored under their own text and listed under it again. */
  lemma IdKey(id: string)
    requires ParseUint(id).Some?
    ensures NewKey(id) == "/" + id && IsRecordKey(NewKey(id)) && RemoveLeadingSlash(NewKey(id)) == id
  {
    DigitsLackDash(id);
    PlainKey(id);
    assert NewKey(id)[1..] == id;
  }

  /** A spelling that reaches the record of another id. */
  predicate Aliased(id: string) { NewKey(id) != "/" + id && IsRecordKey(NewKey(id)) }

  /** Only texts with a slash can be such a spelling. */
  lemma AliasHasSlash(id: string)
    requires Aliased(id)
    ensures !Lacks(id, '/')
  {
    if Lacks(id, '/') {
      PlainKey(id);
    }
  }

  /** For instance, "/7" reaches the record of id 7. */
  lemma SlashedIdIsAliased(id: string)
    requires ParseUint(id).Some?
    ensures Aliased("/" + id) && NewKey("/" + id) == NewKey(id)
  {
    IdKey(id);
    DigitsLackDash(id);
    SplitAt("", '/', id);
    assert "" + ['/'] + id == "/" + id;
    assert ([""] + Split(id, '/'))[1..] == Split(id, '/');
    assert NewKey("/" + id) == "/" + id;
    assert "/" + ("/" + id) != "/" + id by {
      assert |"/" + ("/" + id)| == |id| + 2;
    }
  }
}
