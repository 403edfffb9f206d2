// SettingType: the kinds of novel setting, each with its wire value and display
// name, and the lenient lookup by value that falls back to OTHER.
module SettingTypes {
  import opened Wrappers
  import opened JStrings

  datatype SettingType =
    | CHARACTER | LOCATION | ITEM | LORE | FACTION | EVENT | CONCEPT | CREATURE | MAGIC_SYSTEM
    | TECHNOLOGY | OTHER
  {
    /** getValue, which is also what toString gives and what JSON carries: the
        constant's own name. */
    function Value(): (v: string)
      ensures |v| >= 3 && 'A' <= v[0] <= 'Z'
    {
      match this
      case CHARACTER => "CHARACTER"
      case LOCATION => "LOCATION"
      case ITEM => "ITEM"
      case LORE => "LORE"
      case FACTION => "FACTION"
      case EVENT => "EVENT"
      case CONCEPT => "CONCEPT"
      case CREATURE => "CREATURE"
      case MAGIC_SYSTEM => "MAGIC_SYSTEM"
      case TECHNOLOGY => "TECHNOLOGY"
      case OTHER => "OTHER"
    }

    /** getDisplayName. */
    function DisplayName(): (d: string)
      ensures d != []
    {
      match this
      case CHARACTER => "角色"
      case LOCATION => "地点"
      case ITEM => "物品"
      case LORE => "背景知识"
      case FACTION => "组织/势力"
      case EVENT => "事件"
      case CONCEPT => "概念/规则"
      case CREATURE => "生物/种族"
      case MAGIC_SYSTEM => "魔法体系"
      case TECHNOLOGY => "科技设定"
      case OTHER => "其他"
    }
  }

  /** values(), in declaration order. */
  const AllTypes: seq<SettingType> :=
    [CHARACTER, LOCATION, ITEM, LORE, FACTION, EVENT, CONCEPT, CREATURE, MAGIC_SYSTEM, TECHNOLOGY, OTHER]

  /** Whether a type's value equals the given one ignoring case; a null value
      equals nothing. */
  predicate Matches(t: SettingType, value: Option<string>)
  {
    value.Some? && EqualsIgnoreCase(t.Value(), value.value)
  }

  /** The first of the types whose value matches. */
  function FirstMatching(types: seq<SettingType>, value: Option<string>): (r: Option<SettingType>)
    ensures r.Some? ==> r.value in types && Matches(r.value, value)
    ensures r.None? ==> forall i :: 0 <= i < |types| ==> !Matches(types[i], value)
  {
    if types == [] then None
    else if Matches(types[0], value) then Some(types[0])
    else FirstMatching(types[1..], value)
  }

  /** fromValue: the type whose value equals the given one ignoring case, or
      OTHER when there is none. */
  function FromValue(value: Option<string>): (t: SettingType)
    ensures value.None? ==> t == OTHER
    ensures t != OTHER ==> Matches(t, value)
  {
    var found := FirstMatching(AllTypes, value);
    if found.Some? then found.value else OTHER
  }

  /** Every type is among values(). */
  lemma AllTypesListed(t: SettingType)
    ensures t in AllTypes
  {
  }

  /** Values equal ignoring case have the same length and the same first letter
      up to case. */
  lemma SameValueSameSignature(a: string, b: string)
    requires a != [] && EqualsIgnoreCase(a, b)
    ensures |a| == |b| && LowerChar(a[0]) == LowerChar(b[0])
  {
    assert ToLower(a)[0] == LowerChar(a[0]);
    assert ToLower(b)[0] == LowerChar(b[0]);
  }

  /** No two types have values that are equal ignoring case: the length and the
      first letter already tell them apart. */
  lemma ValuesDistinctIgnoringCase(t: SettingType, u: SettingType)
    requires EqualsIgnoreCase(t.Value(), u.Value())
    ensures t == u
  {
    SameValueSameSignature(t.Value(), u.Value());
    var x, y := t.Value()[0], u.Value()[0];
    assert LowerChar(x) as int == x as int + 32 && LowerChar(y) as int == y as int + 32;
  }

  /** fromValue finds a type exactly when some type's value matches, and then it
      is that type; otherwise it is OTHER. */
  lemma FromValueFindsTheMatch(value: Option<string>, t: SettingType)
    ensures Matches(t, value) ==> FromValue(value) == t
    ensures (forall u: SettingType :: !Matches(u, value)) ==> FromValue(value) == OTHER
  {
    var found := FirstMatching(AllTypes, value);
    if Matches(t, value) {
      AllTypesListed(t);
      var i :| 0 <= i < |AllTypes| && AllTypes[i] == t;
      assert found.Some?;
      ValuesDistinctIgnoringCase(found.value, t);
    }
  }

  /** fromValue(getValue()) and fromValue of the lower-case value both give the
      type back. */
  lemma FromValueOfValue(t: SettingType)
    ensures FromValue(Some(t.Value())) == t
    ensures FromValue(Some(ToLower(t.Value()))) == t
  {
    FromValueFindsTheMatch(Some(t.Value()), t);
    LowerIdempotent(t.Value());
    FromValueFindsTheMatch(Some(ToLower(t.Value())), t);
  }

  /** Lower-casing twice is lower-casing once. */
  lemma LowerIdempotent(s: string)
    ensures ToLower(ToLower(s)) == ToLower(s)
  {
    assert forall i :: 0 <= i < |s| ==> LowerChar(LowerChar(s[i])) == LowerChar(s[i]);
  }

  /** A null value and an unknown one both give OTHER. */
  lemma UnknownValueIsOther(value: Option<string>)
    requires value.None? || forall t: SettingType :: !EqualsIgnoreCase(t.Value(), value.value)
    ensures FromValue(value) == OTHER
  {
    FromValueFindsTheMatch(value, OTHER);
  }
}
