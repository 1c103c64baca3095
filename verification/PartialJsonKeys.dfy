/** Exactly when a field is read: the search goes by how keys are written, so a key written with escapes is
    missed, and a key that ends like the field's behind an escaped quote is mistaken for it. */
module PartialJsonKeys {
  import opened Common
  import opened PartialJson
  import opened PartialJsonTheorems
  import opened PartialJsonObjects

  // ---------------------------------------------------------------- how a key is written

  /** Written without escapes. */
  predicate IsRaw(units: seq<Unit>) {
    forall i :: 0 <= i < |units| ==> units[i].Raw?
  }

  lemma UnitStarts(u: Unit)
    requires Legal(u)
    ensures UnitText(u) != "" && (u.Raw? <==> UnitText(u)[0] != '\\')
  {
  }

  /** What is written as a plain key is that key. */
  lemma {:induction false} PlainTextIsItself(units: seq<Unit>, key: string)
    requires AllLegal(units) && IsPlain(key) && Encode(units) == key
    ensures IsRaw(units) && Meaning(units) == key
  {
    if units != [] {
      UnitStarts(units[0]);
      assert Legal(Raw(key[0])) && key[0] == UnitText(units[0])[0];
      assert key == [key[0]] + Encode(units[1..]);
      assert forall i :: 0 <= i < |key| - 1 ==> key[1..][i] == key[i + 1];
      PlainTextIsItself(units[1..], key[1..]);
    }
  }

  lemma {:induction false} RawIsItsText(units: seq<Unit>)
    requires AllLegal(units) && IsRaw(units)
    ensures Encode(units) == Meaning(units)
  {
    if units != [] {
      RawIsItsText(units[1..]);
    }
  }

  /** A key that ends with a quote and another key is longer than it. */
  lemma {:induction false} EndsQuotedIsLonger(units: seq<Unit>, key: string)
    requires AllLegal(units) && IsPlain(key) && EndsQuoted(Encode(units), key)
    ensures |Meaning(units)| > |key|
    decreases |units|
  {
    EndsQuotedBehindUnit(units, key);
    if units[0] == Short('\"') && Encode(units[1..]) == key {
      PlainTextIsItself(units[1..], key);
    } else {
      EndsQuotedIsLonger(units[1..], key);
    }
  }

  /** The field's own key is taken for it exactly when it is written without escapes, and another key
      exactly when it ends with an escaped quote and the field's key. */
  lemma OpensExactly(units: seq<Unit>, key: string)
    requires AllLegal(units) && IsPlain(key)
    ensures Opens(Encode(units), key) <==> if Meaning(units) == key then IsRaw(units) else EndsQuoted(Encode(units), key)
  {
    if Encode(units) == key {
      PlainTextIsItself(units, key);
    } else if EndsQuoted(Encode(units), key) {
      EndsQuotedIsLonger(units, key);
    } else if IsRaw(units) {
      RawIsItsText(units);
    }
  }

  // ---------------------------------------------------------------- the field of an object

  /** The first member with this key. */
  predicate IsField(o: Object, i: nat, key: string)
    requires WellFormedObject(o)
  {
    && i < |o.members| && Meaning(o.members[i].key) == key
    && forall j :: 0 <= j < i ==> Meaning(o.members[j].key) != key
  }

  /** Its key is written without escapes, and no key before it ends with an escaped quote and its key. */
  predicate IsFound(o: Object, i: nat, key: string)
    requires i < |o.members|
  {
    IsRaw(o.members[i].key) && forall j :: 0 <= j < i ==> !EndsQuoted(Encode(o.members[j].key), key)
  }

  lemma FoundIsFirstOpener(o: Object, i: nat, key: string)
    requires WellFormedObject(o) && IsPlain(key) && IsField(o, i, key)
    ensures IsFirstOpener(o.members, i, key) <==> IsFound(o, i, key)
  {
    OpensExactly(o.members[i].key, key);
    forall j | 0 <= j < i
      ensures Opens(Encode(o.members[j].key), key) <==> EndsQuoted(Encode(o.members[j].key), key)
    {
      OpensExactly(o.members[j].key, key);
    }
  }

  /** A found field is read exactly, whole and cut anywhere. */
  lemma FoundFieldIsRead(o: Object, i: nat, key: string)
    requires WellFormedObject(o) && FieldKey(key) && IsField(o, i, key) && IsFound(o, i, key)
    ensures Field(ObjectText(o), key) == Some(Meaning(o.members[i].value))
    ensures forall k :: 0 <= k <= |ObjectText(o)| ==> Shown(Field(ObjectText(o)[..k], key)) == Arrived(o, i, k)
  {
    FoundIsFirstOpener(o, i, key);
    FirstOpenerIsRead(o, i, key);
    forall k | 0 <= k <= |ObjectText(o)| ensures Shown(Field(ObjectText(o)[..k], key)) == Arrived(o, i, k) {
      CutFirstOpenerIsRead(o, i, k, key);
    }
  }

  // ---------------------------------------------------------------- the same keys with other values

  predicate AreValues(o: Object, vs: seq<seq<Unit>>) {
    |vs| == |o.members| && forall i :: 0 <= i < |vs| ==> AllLegal(vs[i])
  }

  function WithValues(o: Object, vs: seq<seq<Unit>>): (r: Object)
    requires |vs| == |o.members|
    ensures |r.members| == |o.members|
  {
    o.(members := seq(|vs|, i requires 0 <= i < |vs| => o.members[i].(value := vs[i])))
  }

  /** Whatever the values, the field's is the one that is read. */
  ghost predicate ReadsItsValue(o: Object, i: nat, key: string)
    requires i < |o.members|
  {
    forall vs :: AreValues(o, vs) ==> Field(ObjectText(WithValues(o, vs)), key) == Some(Meaning(vs[i]))
  }

  /** Whatever the values and wherever the object is cut, what arrived of the field's is shown. */
  ghost predicate ShowsItsValue(o: Object, i: nat, key: string)
    requires WellFormedObject(o) && i < |o.members|
  {
    forall vs, k: nat :: AreValues(o, vs) && k <= |ObjectText(WithValues(o, vs))| ==>
      ShowsAt(WithValues(o, vs), i, k, key)
  }

  predicate ShowsAt(o: Object, i: nat, k: nat, key: string)
    requires i < |o.members| && k <= |ObjectText(o)|
  {
    WellFormedObject(o) && Shown(Field(ObjectText(o)[..k], key)) == Arrived(o, i, k)
  }

  lemma ValuesKeepKeys(o: Object, vs: seq<seq<Unit>>, i: nat, key: string)
    requires WellFormedObject(o) && AreValues(o, vs) && i < |o.members|
    ensures var r := WithValues(o, vs);
            && WellFormedObject(r) && r.members[i].value == vs[i]
            && (IsField(r, i, key) <==> IsField(o, i, key)) && (IsFound(r, i, key) <==> IsFound(o, i, key))
  {
    var r := WithValues(o, vs);
    assert forall j :: 0 <= j < |r.members| ==> r.members[j] == o.members[j].(value := vs[j]);
  }

  /** The field's value "y" among values "x". */
  function Telling(n: nat, i: nat): (vs: seq<seq<Unit>>)
    ensures |vs| == n
  {
    seq(n, j requires 0 <= j < n => if j == i then [Raw('y')] else [Raw('x')])
  }

  lemma MeaningOfOne(c: char)
    requires Legal(Raw(c))
    ensures AllLegal([Raw(c)]) && Meaning([Raw(c)]) == [c] && Encode([Raw(c)]) == [c]
  {
    assert [Raw(c)][1..] == [];
  }

  lemma {:induction false} FirstOpener(ms: seq<Member>, key: string) returns (f: Option<nat>)
    ensures f.Some? ==> IsFirstOpener(ms, f.value, key)
    ensures f.None? ==> NoneOpens(ms, key)
  {
    var j := 0;
    while j < |ms| && !Opens(Encode(ms[j].key), key)
      invariant j <= |ms| && forall k :: 0 <= k < j ==> !Opens(Encode(ms[k].key), key)
    {
      j := j + 1;
    }
    f := if j < |ms| then Some(j) else None;
  }

  /** A field that is not found: another value is read, or none. */
  lemma UnfoundReadsAnother(o: Object, i: nat, key: string)
    requires WellFormedObject(o) && FieldKey(key) && IsField(o, i, key) && !IsFound(o, i, key)
    ensures AreValues(o, Telling(|o.members|, i))
    ensures Field(ObjectText(WithValues(o, Telling(|o.members|, i))), key) in {None, Some("x")}
  {
    var vs := Telling(|o.members|, i);
    MeaningOfOne('x');
    MeaningOfOne('y');
    ValuesKeepKeys(o, vs, i, key);
    var r := WithValues(o, vs);
    FoundIsFirstOpener(r, i, key);
    var f := FirstOpener(r.members, key);
    if f.Some? {
      FirstOpenerIsRead(r, f.value, key);
      OnlyOneIsFirst(r.members, f.value, i, key);
      assert r.members[f.value].value == vs[f.value];
    } else {
      NothingIsRead(r, key);
    }
  }

  lemma OnlyOneIsFirst(ms: seq<Member>, f: nat, i: nat, key: string)
    requires IsFirstOpener(ms, f, key) && !IsFirstOpener(ms, i, key)
    ensures f != i
  {
  }

  /** The field is the one that is read, whatever the values are, exactly when its key is written without
      escapes and no key before it ends with an escaped quote and its key. */
  lemma FieldIsReadExactly(o: Object, i: nat, key: string)
    requires WellFormedObject(o) && FieldKey(key) && IsField(o, i, key)
    ensures ReadsItsValue(o, i, key) <==> IsFound(o, i, key)
  {
    if IsFound(o, i, key) {
      forall vs | AreValues(o, vs) ensures Field(ObjectText(WithValues(o, vs)), key) == Some(Meaning(vs[i])) {
        ValuesKeepKeys(o, vs, i, key);
        FoundFieldIsRead(WithValues(o, vs), i, key);
      }
    } else {
      UnfoundReadsAnother(o, i, key);
      MeaningOfOne('y');
      assert Telling(|o.members|, i)[i] == [Raw('y')];
    }
  }

  /** And then, and only then, exactly what arrived of it is shown wherever the object is cut. */
  lemma CutFieldIsReadExactly(o: Object, i: nat, key: string)
    requires WellFormedObject(o) && FieldKey(key) && IsField(o, i, key)
    ensures ShowsItsValue(o, i, key) <==> IsFound(o, i, key)
  {
    if IsFound(o, i, key) {
      forall vs, k: nat | AreValues(o, vs) && k <= |ObjectText(WithValues(o, vs))|
        ensures ShowsAt(WithValues(o, vs), i, k, key)
      {
        ValuesKeepKeys(o, vs, i, key);
        FoundFieldIsRead(WithValues(o, vs), i, key);
      }
    } else {
      UnfoundReadsAnother(o, i, key);
      var vs := Telling(|o.members|, i);
      var r := WithValues(o, vs);
      ValuesKeepKeys(o, vs, i, key);
      assert vs[i] == [Raw('y')];
      MeaningOfOne('y');
      AllArrives(r, i);
      assert ObjectText(r)[..|ObjectText(r)|] == ObjectText(r);
      assert !ShowsAt(r, i, |ObjectText(r)|, key);
    }
  }

  lemma AllArrives(o: Object, i: nat)
    requires WellFormedObject(o) && i < |o.members|
    ensures Arrived(o, i, |ObjectText(o)|) == Meaning(o.members[i].value)
  {
    RestIsLonger(o, i);
    ArrivesBehind(o, i, |ObjectText(o)|);
  }

  lemma ArrivesBehind(o: Object, i: nat, k: nat)
    requires WellFormedObject(o) && i < |o.members| && k > |UpTo(o, i)| + |Encode(o.members[i].value)|
    ensures Arrived(o, i, k) == Meaning(o.members[i].value)
  {
    AllArrived(o.members[i].value, k - |UpTo(o, i)|);
  }

  lemma RestIsLonger(o: Object, i: nat)
    requires i < |o.members|
    ensures |ObjectText(o)| > |UpTo(o, i)| + |Encode(o.members[i].value)|
  {
    ObjectSplits(o, i);
    assert |From(o, i)| > |Encode(o.members[i].value)|;
  }

  /** A field the object does not have is not found, in all of it and in any part, exactly when no key
      ends with an escaped quote and the field's key. */
  lemma AbsentFieldExactly(o: Object, key: string)
    requires WellFormedObject(o) && FieldKey(key)
    requires forall j :: 0 <= j < |o.members| ==> Meaning(o.members[j].key) != key
    ensures (forall k :: 0 <= k <= |ObjectText(o)| ==> Field(ObjectText(o)[..k], key) == None) <==>
            forall j :: 0 <= j < |o.members| ==> !EndsQuoted(Encode(o.members[j].key), key)
  {
    var text := ObjectText(o);
    assert text[..|text|] == text;
    forall j | 0 <= j < |o.members|
      ensures Opens(Encode(o.members[j].key), key) <==> EndsQuoted(Encode(o.members[j].key), key)
    {
      OpensExactly(o.members[j].key, key);
    }
    var f := FirstOpener(o.members, key);
    if f.Some? {
      FirstOpenerIsRead(o, f.value, key);
    } else {
      NothingIsRead(o, key);
      forall k | 0 <= k <= |text| ensures Field(text[..k], key) == None {
        assert text[..k] + text[k..] == text;
        FieldGrows(text[..k], text[k..], Pattern(key));
      }
    }
  }

  // ---------------------------------------------------------------- two objects that are misread

  const PLAN: seq<Unit> := [Raw('p'), Raw('l'), Raw('a'), Raw('n')]

  lemma PlanIsPlan()
    ensures AllLegal(PLAN) && Encode(PLAN) == "plan" && Meaning(PLAN) == "plan" && FieldKey("plan")
  {
    assert PLAN[1..] == [Raw('l'), Raw('a'), Raw('n')] && PLAN[1..][1..] == [Raw('a'), Raw('n')];
    assert PLAN[1..][1..][1..] == [Raw('n')] && PLAN[1..][1..][1..][1..] == [];
  }

  function OneMember(key: seq<Unit>, value: char): Member {
    Member("", key, "", "", [Raw(value)], "")
  }

  lemma OneMemberIsWellFormed(key: seq<Unit>, value: char)
    requires AllLegal(key) && Legal(Raw(value))
    ensures WellFormed(OneMember(key, value))
  {
  }

  lemma OneMemberObject(key: seq<Unit>, value: char)
    ensures ObjectText(Object("", [OneMember(key, value)], "", "")) == "{\"" + Encode(key) + "\":\"" + [value] + "\"}"
  {
    var m := OneMember(key, value);
    assert [Raw(value)][1..] == [] && Encode([Raw(value)]) == [value];
    assert Gap(m) == ":" && Behind([m], 0, "") == "\"}";
    assert Joined([m], "") == Head(m) + ([value] + "\"}");
    Flattens(Encode(key), [value]);
  }

  lemma Flattens(key: string, value: string)
    ensures "" + ("{" + (("" + ("\"" + (key + ("\"" + (":" + "\""))))) + (value + "\"}"))) ==
            "{\"" + key + "\":\"" + value + "\"}"
  {
  }

  /** A key written with an escape is missed. */
  lemma EscapedKeyIsMissed() returns (o: Object)
    ensures ObjectText(o) == "{\"" + "pl\\u0061n" + "\":\"" + "y" + "\"}"
    ensures WellFormedObject(o) && IsField(o, 0, "plan") && Field(ObjectText(o), "plan") == None
  {
    var key := [Raw('p'), Raw('l'), Code("0061"), Raw('n')];
    EscapedPlan(key);
    o := Object("", [OneMember(key, 'y')], "", "");
    OneMemberObject(key, 'y');
    OneMemberIsWellFormed(key, 'y');
    PlanIsPlan();
    OpensExactly(key, "plan");
    NothingIsRead(o, "plan");
  }

  lemma EscapedPlan(key: seq<Unit>)
    requires key == [Raw('p'), Raw('l'), Code("0061"), Raw('n')]
    ensures AllLegal(key) && Meaning(key) == "plan" && Encode(key) == "pl\\u0061n" && !IsRaw(key)
  {
    assert HexValue("0061") == 0x61;
    assert UnitMeaning(Code("0061")) == 'a' && UnitText(Code("0061")) == "\\u0061";
    var last := [Raw('n')];
    MeaningOfOne('n');
    UnitFirst(Code("0061"), last);
    UnitFirst(Raw('l'), [Code("0061")] + last);
    UnitFirst(Raw('p'), [Raw('l')] + ([Code("0061")] + last));
    assert key == [Raw('p')] + ([Raw('l')] + ([Code("0061")] + last));
    assert "p" + ("l" + ("\\u0061" + "n")) == "pl\\u0061n" && ['p'] + (['l'] + (['a'] + "n")) == "plan";
    assert !key[2].Raw?;
  }

  lemma UnitFirst(u: Unit, rest: seq<Unit>)
    requires Legal(u) && AllLegal(rest)
    ensures AllLegal([u] + rest)
    ensures Encode([u] + rest) == UnitText(u) + Encode(rest) && Meaning([u] + rest) == [UnitMeaning(u)] + Meaning(rest)
  {
    assert ([u] + rest)[1..] == rest;
  }

  /** A key that ends with an escaped quote and "plan" is taken for "plan". */
  lemma QuotedKeyIsMistaken() returns (o: Object)
    ensures WellFormedObject(o) && |o.members| == 2 && IsField(o, 1, "plan") && Meaning(o.members[1].value) == "y"
    ensures Encode(o.members[0].key) == "a\\\"plan" && Field(ObjectText(o), "plan") == Some("x")
  {
    var key := [Raw('a'), Short('\"')] + PLAN;
    PlanIsPlan();
    QuotedPlan(key);
    OneMemberIsWellFormed(key, 'x');
    OneMemberIsWellFormed(PLAN, 'y');
    MeaningOfOne('x');
    MeaningOfOne('y');
    o := Object("", [OneMember(key, 'x'), OneMember(PLAN, 'y')], "", "");
    FirstOpenerIsRead(o, 0, "plan");
  }

  lemma QuotedPlan(key: seq<Unit>)
    requires key == [Raw('a'), Short('\"')] + PLAN
    ensures AllLegal(key) && Encode(key) == "a\\\"plan" && Opens(Encode(key), "plan") && Meaning(key) != "plan"
  {
    PlanIsPlan();
    assert key[1..] == [Short('\"')] + PLAN && key[1..][1..] == PLAN;
    assert Encode(key[1..]) == "\\\"" + "plan" && UnitText(key[0]) == "a";
    assert "a" + ("\\\"" + "plan") == "a\\\"plan";
    assert Encode(key) == "a\\\"plan" && "a\\\"plan"[1..] == "\\\"" + "plan";
    EndsQuotedIsLonger(key, "plan");
  }
}
