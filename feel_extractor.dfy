/**
 * `extractFieldReferences`: the person and situation field paths that the
 * FEEL text of a DMN document mentions, collected into insertion-ordered
 * sets; the merge over several documents; and `organizeFields`.
 */
module FeelExtractor {
  import opened Wrappers
  import opened Text
  import opened Ordered
  import opened Dmn
  import opened FeelScan

  /** The two sets `extractFieldReferences` returns, in insertion order. */
  datatype FieldRefs = FieldRefs(person: seq<string>, situation: seq<string>)

  /** A situation path the scan skips: the `people` list itself. */
  predicate IsPeopleList(path: string) {
    StartsWith(path, "people[") || path == "people"
  }

  /** The captured paths that are not the `people` list, in order. */
  function WithoutPeople(paths: seq<string>): (r: seq<string>)
    ensures forall x :: x in r <==> x in paths && !IsPeopleList(x)
  {
    if paths == [] then []
    else
      var rest := WithoutPeople(paths[..|paths| - 1]);
      var last := paths[|paths| - 1];
      assert paths == paths[..|paths| - 1] + [last];
      if IsPeopleList(last) then rest else rest + [last]
  }

  /** The paths the person rules capture in the given texts, in scan order. */
  function PersonCaptures(texts: seq<string>): seq<string> {
    if texts == [] then []
    else
      var t := texts[|texts| - 1];
      PersonCaptures(texts[..|texts| - 1]) + Scan(PersonField, t) + Scan(PeopleField, t)
  }

  /** The paths the situation rule captures and keeps, in scan order. */
  function SituationCaptures(texts: seq<string>): seq<string> {
    if texts == [] then []
    else
      SituationCaptures(texts[..|texts| - 1]) + WithoutPeople(Scan(SituationField, texts[|texts| - 1]))
  }

  /** A path or the first segment of a path in `paths`. */
  predicate Mentioned(x: string, paths: seq<string>) {
    exists c :: c in paths && (x == c || x == FirstSegment(c))
  }

  /**
   * The set `acc` after adding each path and then its first segment, as
   * each `for (const match of ...)` loop does.
   */
  function AddPaths(acc: seq<string>, paths: seq<string>): seq<string> {
    if paths == [] then acc
    else
      var last := paths[|paths| - 1];
      Add(Add(AddPaths(acc, paths[..|paths| - 1]), last), FirstSegment(last))
  }

  /** The result of `extractFieldReferences` on a document. */
  function References(doc: Document): FieldRefs {
    FieldRefs(AddPaths([], PersonCaptures(doc.texts)), AddPaths([], SituationCaptures(doc.texts)))
  }

  lemma AddPathsSnoc(acc: seq<string>, paths: seq<string>, x: string)
    ensures AddPaths(acc, paths + [x]) == Add(Add(AddPaths(acc, paths), x), FirstSegment(x))
  {
    assert (paths + [x])[..|paths|] == paths;
  }

  /** Adding two runs of paths one after the other is adding their concatenation. */
  lemma {:induction false} AddPathsConcat(acc: seq<string>, a: seq<string>, b: seq<string>)
    ensures AddPaths(acc, a + b) == AddPaths(AddPaths(acc, a), b)
    decreases |b|
  {
    if b == [] {
      assert a + b == a;
    } else {
      var init := b[..|b| - 1];
      var y := b[|b| - 1];
      assert b == init + [y];
      assert a + b == (a + init) + [y];
      AddPathsSnoc(acc, a + init, y);
      AddPathsSnoc(AddPaths(acc, a), init, y);
      AddPathsConcat(acc, a, init);
    }
  }

  lemma WithoutPeopleSnoc(paths: seq<string>, x: string)
    ensures WithoutPeople(paths + [x]) == WithoutPeople(paths) + (if IsPeopleList(x) then [] else [x])
  {
    assert (paths + [x])[..|paths|] == paths;
  }

  lemma CapturesPrefix(texts: seq<string>, i: nat)
    requires i < |texts|
    ensures PersonCaptures(texts[..i + 1])
         == PersonCaptures(texts[..i]) + Scan(PersonField, texts[i]) + Scan(PeopleField, texts[i])
    ensures SituationCaptures(texts[..i + 1])
         == SituationCaptures(texts[..i]) + WithoutPeople(Scan(SituationField, texts[i]))
  {
    assert texts[..i + 1][..i] == texts[..i];
  }

  /** The loop over the matches of one person rule. */
  method AddMatches(acc: seq<string>, matches: seq<string>) returns (r: seq<string>)
    ensures r == AddPaths(acc, matches)
  {
    r := acc;
    for j := 0 to |matches|
      invariant r == AddPaths(acc, matches[..j])
    {
      var fieldPath := matches[j];
      assert matches[..j + 1][..j] == matches[..j];
      r := Add(r, fieldPath);
      r := Add(r, FirstSegment(fieldPath));
    }
    assert matches[..|matches|] == matches;
  }

  /** The loop over the situation matches, skipping the `people` list. */
  method AddSituationMatches(acc: seq<string>, matches: seq<string>) returns (r: seq<string>)
    ensures r == AddPaths(acc, WithoutPeople(matches))
  {
    r := acc;
    for j := 0 to |matches|
      invariant r == AddPaths(acc, WithoutPeople(matches[..j]))
    {
      var fieldPath := matches[j];
      assert matches[..j + 1][..j] == matches[..j];
      if StartsWith(fieldPath, "people[") || fieldPath == "people" {
        continue;
      }
      ghost var kept := WithoutPeople(matches[..j]);
      assert (kept + [fieldPath])[..|kept|] == kept;
      r := Add(r, fieldPath);
      r := Add(r, FirstSegment(fieldPath));
    }
    assert matches[..|matches|] == matches;
  }

  /** `extractFieldReferences(dmnDoc)`: one pass over the text fragments. */
  method ExtractFieldReferences(doc: Document) returns (refs: FieldRefs)
    ensures refs == References(doc)
  {
    var texts := doc.texts;
    var person: seq<string> := [];
    var situation: seq<string> := [];
    for i := 0 to |texts|
      invariant person == AddPaths([], PersonCaptures(texts[..i]))
      invariant situation == AddPaths([], SituationCaptures(texts[..i]))
    {
      var feelExpression := texts[i];
      var personMatches := Scan(PersonField, feelExpression);
      var peopleMatches := Scan(PeopleField, feelExpression);
      var situationMatches := Scan(SituationField, feelExpression);
      CapturesPrefix(texts, i);
      var before := PersonCaptures(texts[..i]);
      AddPathsConcat([], before, personMatches);
      AddPathsConcat([], before + personMatches, peopleMatches);
      AddPathsConcat([], SituationCaptures(texts[..i]), WithoutPeople(situationMatches));
      person := AddMatches(person, personMatches);
      person := AddMatches(person, peopleMatches);
      situation := AddSituationMatches(situation, situationMatches);
    }
    assert texts[..|texts|] == texts;
    refs := FieldRefs(person, situation);
  }

  /** Exactly `acc`, the captured paths and their first segments end up in the set. */
  lemma {:induction false} AddPathsElems(acc: seq<string>, paths: seq<string>, x: string)
    ensures x in AddPaths(acc, paths) <==> x in acc || Mentioned(x, paths)
    decreases |paths|
  {
    if paths != [] {
      var init := paths[..|paths| - 1];
      var last := paths[|paths| - 1];
      assert paths == init + [last];
      AddPathsElems(acc, init, x);
      var a := AddPaths(acc, init);
      assert AddPaths(acc, paths) == Add(Add(a, last), FirstSegment(last));
      InAdd(a, last, x);
      InAdd(Add(a, last), FirstSegment(last), x);
      assert x in AddPaths(acc, paths) <==> x in a || x == last || x == FirstSegment(last);
      MentionedSnoc(init, last, x);
      assert Mentioned(x, paths) <==> Mentioned(x, init) || x == last || x == FirstSegment(last);
    }
  }

  /** The sets hold no duplicates. */
  lemma {:induction false} AddPathsNoDup(acc: seq<string>, paths: seq<string>)
    requires NoDup(acc)
    ensures NoDup(AddPaths(acc, paths))
    decreases |paths|
  {
    if paths != [] {
      AddPathsNoDup(acc, paths[..|paths| - 1]);
    }
  }

  lemma MentionedSnoc(init: seq<string>, last: string, x: string)
    ensures Mentioned(x, init + [last]) <==> Mentioned(x, init) || x == last || x == FirstSegment(last)
  {
    if Mentioned(x, init) {
      var c :| c in init && (x == c || x == FirstSegment(c));
      assert c in init + [last];
    }
    if x == last || x == FirstSegment(last) {
      assert last in init + [last];
    }
    if Mentioned(x, init + [last]) {
      var c :| c in init + [last] && (x == c || x == FirstSegment(c));
      if c != last {
        assert c in init;
      }
    }
  }

  /** Every person-rule capture contributes itself and its first segment to the person set. */
  lemma PersonFieldsElems(doc: Document, x: string)
    ensures x in References(doc).person <==> Mentioned(x, PersonCaptures(doc.texts))
  {
    AddPathsElems([], PersonCaptures(doc.texts), x);
  }

  /** The situation set holds exactly the kept situation paths and their first segments. */
  lemma SituationFieldsElems(doc: Document, x: string)
    ensures x in References(doc).situation <==> Mentioned(x, SituationCaptures(doc.texts))
  {
    AddPathsElems([], SituationCaptures(doc.texts), x);
  }

  /** Every path the situation rule captures is kept unless it is the `people` list. */
  lemma {:induction false} SituationCapturesElems(texts: seq<string>, c: string)
    ensures c in SituationCaptures(texts) <==>
            !IsPeopleList(c) && exists t :: t in texts && c in Scan(SituationField, t)
    decreases |texts|
  {
    if texts != [] {
      var init := texts[..|texts| - 1];
      var last := texts[|texts| - 1];
      assert texts == init + [last];
      SituationCapturesElems(init, c);
      if exists t :: t in texts && c in Scan(SituationField, t) {
        var t :| t in texts && c in Scan(SituationField, t);
        if t != last {
          assert t in init;
        }
      }
    }
  }

  /** Every path the two person rules capture, and nothing else, in the given texts. */
  lemma {:induction false} PersonCapturesElems(texts: seq<string>, c: string)
    ensures c in PersonCaptures(texts) <==>
            exists t :: t in texts && (c in Scan(PersonField, t) || c in Scan(PeopleField, t))
    decreases |texts|
  {
    if texts != [] {
      var init := texts[..|texts| - 1];
      var last := texts[|texts| - 1];
      assert texts == init + [last];
      PersonCapturesElems(init, c);
      if exists t :: t in texts && (c in Scan(PersonField, t) || c in Scan(PeopleField, t)) {
        var t :| t in texts && (c in Scan(PersonField, t) || c in Scan(PeopleField, t));
        if t != last {
          assert t in init;
        }
      }
    }
  }

  /**
   * No element of the situation set is the `people[...]` list: a skipped
   * path is never added, and a first segment holds no `[`.
   */
  lemma NoPeopleListInSituation(doc: Document, x: string)
    requires x in References(doc).situation
    ensures !StartsWith(x, "people[")
  {
    SituationFieldsElems(doc, x);
    var c :| c in SituationCaptures(doc.texts) && (x == c || x == FirstSegment(c));
    SituationCapturesElems(doc.texts, c);
  }

  /**
   * `people` itself reaches the situation set only as the first segment of
   * a kept path `people.<more>`.
   */
  lemma PeopleInSituation(doc: Document)
    ensures "people" in References(doc).situation <==>
            exists c :: c in SituationCaptures(doc.texts) && StartsWith(c, "people.")
  {
    var kept := SituationCaptures(doc.texts);
    SituationFieldsElems(doc, "people");
    if Mentioned("people", kept) {
      var c :| c in kept && ("people" == c || "people" == FirstSegment(c));
      SituationCapturesElems(doc.texts, c);
      PeopleSegment(c);
    }
    if exists c :: c in kept && StartsWith(c, "people.") {
      var c :| c in kept && StartsWith(c, "people.");
      PeopleSegment(c);
    }
  }

  /** A path other than the `people` list has first segment `people` exactly when it starts with `people.`. */
  lemma PeopleSegment(c: string)
    ensures StartsWith(c, "people.") <==> FirstSegment(c) == "people" && !IsPeopleList(c)
  {
    if FirstSegment(c) == "people" && !IsPeopleList(c) {
      assert c[..6] == "people";
      assert c[..7] == c[..6] + ".";
    }
    if StartsWith(c, "people.") {
      assert c[..6] == "people";
      FirstSegmentAt(c, 6);
    }
  }

  /** The first segment of a path whose first separator is at `k`. */
  lemma {:induction false} FirstSegmentAt(path: string, k: nat)
    requires k < |path| && (path[k] == '.' || path[k] == '[')
    requires forall i :: 0 <= i < k ==> path[i] != '.' && path[i] != '['
    ensures FirstSegment(path) == path[..k]
    decreases k
  {
    if k > 0 {
      FirstSegmentAt(path[1..], k - 1);
      assert path[..k] == [path[0]] + path[1..][..k - 1];
    }
  }

  /** Only text fragments are scanned: a document without any yields two empty sets. */
  lemma NoTextNoReferences(doc: Document)
    requires doc.texts == []
    ensures References(doc) == FieldRefs([], [])
  {
  }

  /** The merged sets of several documents, in the order the merge loop fills them. */
  function Merged(docs: seq<Document>): FieldRefs {
    if docs == [] then FieldRefs([], [])
    else
      var m := Merged(docs[..|docs| - 1]);
      var d := References(docs[|docs| - 1]);
      FieldRefs(AddAll(m.person, d.person), AddAll(m.situation, d.situation))
  }

  /** `set.forEach(field => merged.add(field))`. */
  method AddEach(merged: seq<string>, fields: seq<string>) returns (r: seq<string>)
    ensures r == AddAll(merged, fields)
  {
    r := merged;
    for j := 0 to |fields|
      invariant r == AddAll(merged, fields[..j])
    {
      assert fields[..j + 1][..j] == fields[..j];
      r := Add(r, fields[j]);
    }
    assert fields[..|fields|] == fields;
  }

  lemma MergedPrefix(docs: seq<Document>, i: nat)
    requires i < |docs|
    ensures Merged(docs[..i + 1]) ==
            FieldRefs(AddAll(Merged(docs[..i]).person, References(docs[i]).person),
                      AddAll(Merged(docs[..i]).situation, References(docs[i]).situation))
  {
    assert docs[..i + 1][..i] == docs[..i];
  }

  /** `extractFieldReferencesFromMultiple(dmnDocs)`. */
  method ExtractFieldReferencesFromMultiple(docs: seq<Document>) returns (refs: FieldRefs)
    ensures refs == Merged(docs)
  {
    var mergedPerson: seq<string> := [];
    var mergedSituation: seq<string> := [];
    assert docs[..0] == [];
    assert Merged([]) == FieldRefs([], []);
    for i := 0 to |docs|
      invariant FieldRefs(mergedPerson, mergedSituation) == Merged(docs[..i])
    {
      MergedPrefix(docs, i);
      var d := ExtractFieldReferences(docs[i]);
      mergedPerson := AddEach(mergedPerson, d.person);
      mergedSituation := AddEach(mergedSituation, d.situation);
    }
    assert docs[..|docs|] == docs;
    refs := FieldRefs(mergedPerson, mergedSituation);
  }

  lemma InInit<T>(s: seq<T>, x: T)
    requires |s| > 0 && x in s[..|s| - 1]
    ensures x in s
  {
    var j :| 0 <= j < |s| - 1 && s[..|s| - 1][j] == x;
    assert s[j] == x;
  }

  lemma InInitOrLast<T>(s: seq<T>, x: T)
    requires x in s && x != s[|s| - 1]
    ensures x in s[..|s| - 1]
  {
    var j :| 0 <= j < |s| && s[j] == x;
    assert s[..|s| - 1][j] == x;
  }

  lemma {:induction false} MergedPersonElems(docs: seq<Document>, x: string)
    ensures x in Merged(docs).person <==> exists d :: d in docs && x in References(d).person
    decreases |docs|
  {
    if docs != [] {
      var n := |docs| - 1;
      var init := docs[..n];
      assert docs[..n + 1] == docs;
      MergedPrefix(docs, n);
      MergedPersonElems(init, x);
      InAddAll(Merged(init).person, References(docs[n]).person, x);
      if x in Merged(init).person {
        var d :| d in init && x in References(d).person;
        InInit(docs, d);
      }
      if exists d :: d in docs && x in References(d).person {
        var d :| d in docs && x in References(d).person;
        if d != docs[n] {
          InInitOrLast(docs, d);
        }
      }
    }
  }

  lemma {:induction false} MergedSituationElems(docs: seq<Document>, x: string)
    ensures x in Merged(docs).situation <==> exists d :: d in docs && x in References(d).situation
    decreases |docs|
  {
    if docs != [] {
      var n := |docs| - 1;
      var init := docs[..n];
      assert docs[..n + 1] == docs;
      MergedPrefix(docs, n);
      MergedSituationElems(init, x);
      InAddAll(Merged(init).situation, References(docs[n]).situation, x);
      if x in Merged(init).situation {
        var d :| d in init && x in References(d).situation;
        InInit(docs, d);
      }
      if exists d :: d in docs && x in References(d).situation {
        var d :| d in docs && x in References(d).situation;
        if d != docs[n] {
          InInitOrLast(docs, d);
        }
      }
    }
  }

  /** A field in a merged set comes from some document, and every document's fields are there. */
  lemma MergedElems(docs: seq<Document>, x: string)
    ensures x in Merged(docs).person <==> exists d :: d in docs && x in References(d).person
    ensures x in Merged(docs).situation <==> exists d :: d in docs && x in References(d).situation
  {
    MergedPersonElems(docs, x);
    MergedSituationElems(docs, x);
  }

  /** The merged sets do not depend on the order of the documents or on repeats. */
  lemma MergeOrderIndependent(docs1: seq<Document>, docs2: seq<Document>)
    requires Elems(docs1) == Elems(docs2)
    ensures Elems(Merged(docs1).person) == Elems(Merged(docs2).person)
    ensures Elems(Merged(docs1).situation) == Elems(Merged(docs2).situation)
  {
    forall x ensures x in Merged(docs1).person <==> x in Merged(docs2).person {
      MergedElems(docs1, x);
      MergedElems(docs2, x);
      if x in Merged(docs1).person {
        var d :| d in docs1 && x in References(d).person;
        assert d in Elems(docs2);
      }
      if x in Merged(docs2).person {
        var d :| d in docs2 && x in References(d).person;
        assert d in Elems(docs1);
      }
    }
    forall x ensures x in Merged(docs1).situation <==> x in Merged(docs2).situation {
      MergedElems(docs1, x);
      MergedElems(docs2, x);
      if x in Merged(docs1).situation {
        var d :| d in docs1 && x in References(d).situation;
        assert d in Elems(docs2);
      }
      if x in Merged(docs2).situation {
        var d :| d in docs2 && x in References(d).situation;
        assert d in Elems(docs1);
      }
    }
  }

  /** The value `organizeFields` stores for a field: `{name: field}`. */
  datatype FieldInfo = FieldInfo(name: string)

  /** A field `organizeFields` keeps: neither a collection accessor nor a nested path. */
  predicate IsTopLevel(field: string) {
    '[' !in field && '.' !in field
  }

  /** The object `organizeFields` builds, keys in insertion order. */
  function Organized(fields: seq<string>): seq<Entry<FieldInfo>> {
    if fields == [] then []
    else
      var m := Organized(fields[..|fields| - 1]);
      var f := fields[|fields| - 1];
      if IsTopLevel(f) then Put(m, f, FieldInfo(f)) else m
  }

  /** `organizeFields(fields)`. */
  method OrganizeFields(fields: seq<string>) returns (organized: seq<Entry<FieldInfo>>)
    ensures organized == Organized(fields)
  {
    organized := [];
    for i := 0 to |fields|
      invariant organized == Organized(fields[..i])
    {
      assert fields[..i + 1][..i] == fields[..i];
      var field := fields[i];
      if '[' in field || '.' in field {
        continue;
      }
      organized := Put(organized, field, FieldInfo(field));
    }
    assert fields[..|fields|] == fields;
  }

  /** Exactly the top-level fields are keys, each mapped to `{name: field}`. */
  lemma {:induction false} OrganizedKeys(fields: seq<string>, k: string)
    ensures Get(Organized(fields), k) == (if k in fields && IsTopLevel(k) then Some(FieldInfo(k)) else None)
    decreases |fields|
  {
    if fields != [] {
      var init := fields[..|fields| - 1];
      assert fields == init + [fields[|fields| - 1]];
      OrganizedKeys(init, k);
    }
  }
}
