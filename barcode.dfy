/** The barcode plugin for InvenTree's own barcodes: a barcode is a JSON object whose
    keys name the kind of object it points to ('stockitem', 'stocklocation', 'part')
    and whose values give the object's primary key, either directly or as the 'id' of
    a nested object. The database tables are maps from primary key to object. */
module Barcode {
  import opened Wrappers
  import opened Strings

  /** A decoded JSON value; an object keeps its keys in order. */
  datatype JVal =
    | JDict(entries: seq<(string, JVal)>)
    | JStr(s: string)
    | JInt(i: int)
    | JBool(b: bool)
    | JList(items: seq<JVal>)
    | JNull

  /** What a lookup may raise. */
  datatype BarcodeError =
    | ValidationError(key: string, message: string)
    | TypeError
    | AttributeError

  /** The value stored under `key` in an object's entries. */
  function Get(entries: seq<(string, JVal)>, key: string): (r: Option<JVal>)
    ensures r.None? <==> forall i :: 0 <= i < |entries| ==> entries[i].0 != key
    ensures r.Some? ==> exists i :: 0 <= i < |entries| && entries[i] == (key, r.value)
    decreases |entries|
  {
    if entries == [] then None
    else if entries[0].0 == key then Some(entries[0].1)
    else
      var rest := Get(entries[1..], key);
      assert forall i :: 0 < i < |entries| ==> entries[i] == entries[1..][i - 1];
      rest
  }

  predicate IsDigit(c: char) {
    '0' <= c <= '9'
  }

  function DigitValue(c: char): nat
    requires IsDigit(c)
  {
    c as int - '0' as int
  }

  predicate AllDigits(s: string) {
    forall i :: 0 <= i < |s| ==> IsDigit(s[i])
  }

  /** The number a string of decimal digits denotes. */
  function DigitsValue(s: string): nat
    requires AllDigits(s)
    decreases |s|
  {
    if s == [] then 0 else DigitsValue(s[..|s| - 1]) * 10 + DigitValue(s[|s| - 1])
  }

  /** The whitespace `str.strip` removes, on ASCII. */
  predicate IsSpace(c: char) {
    c == ' ' || c == '\t' || c == '\n' || c == '\r' || c == '\U{000B}' || c == '\U{000C}'
  }

  function StripLeft(s: string): (r: string)
    ensures |r| <= |s|
    decreases |s|
  {
    if s != [] && IsSpace(s[0]) then StripLeft(s[1..]) else s
  }

  function StripRight(s: string): (r: string)
    ensures |r| <= |s|
    decreases |s|
  {
    if s != [] && IsSpace(s[|s| - 1]) then StripRight(s[..|s| - 1]) else s
  }

  /** `int(text)`: optional surrounding whitespace, an optional sign and at least one
      decimal digit. */
  function ParseInt(text: string): Option<int> {
    var t := StripRight(StripLeft(text));
    if t != [] && (t[0] == '-' || t[0] == '+') then
      var digits := t[1..];
      if digits != [] && AllDigits(digits) then
        Some(if t[0] == '-' then -(DigitsValue(digits) as int) else DigitsValue(digits))
      else None
    else if t != [] && AllDigits(t) then Some(DigitsValue(t))
    else None
  }

  /** `int(value)`, or none where Python raises TypeError or ValueError. */
  function IntOf(v: JVal): (r: Option<int>)
    ensures v.JInt? ==> r == Some(v.i)
    ensures v.JBool? ==> r == Some(if v.b then 1 else 0)
    ensures v.JDict? || v.JList? || v.JNull? ==> r.None?
  {
    match v
    case JInt(i) => Some(i)
    case JBool(b) => Some(if b then 1 else 0)
    case JStr(s) => ParseInt(s)
    case _ => None
  }

  /** Each digit character reads back as its digit. */
  lemma DigitCharValue(d: nat)
    requires d < 10
    ensures IsDigit(DigitChar(d)) && DigitValue(DigitChar(d)) == d
  {
    assert "0123456789"[d] as int == '0' as int + d by {
      assert d in {0, 1, 2, 3, 4, 5, 6, 7, 8, 9};
    }
  }

  lemma {:induction false} NatToStringDigits(n: nat)
    ensures AllDigits(NatToString(n)) && NatToString(n) != []
    ensures DigitsValue(NatToString(n)) == n
    decreases n
  {
    DigitCharValue(n % 10);
    if n >= 10 {
      NatToStringDigits(n / 10);
      var s := NatToString(n);
      assert s[..|s| - 1] == NatToString(n / 10);
      assert forall i :: 0 <= i < |s| - 1 ==> s[i] == NatToString(n / 10)[i];
    }
  }

  lemma NoSpaceLeft(s: string)
    requires s != [] && !IsSpace(s[0])
    ensures StripLeft(s) == s
  {
  }

  lemma NoSpaceRight(s: string)
    requires s != [] && !IsSpace(s[|s| - 1])
    ensures StripRight(s) == s
  {
  }

  /** `int` reads back the decimal text of every integer. */
  lemma ParseIntRoundTrip(n: int)
    ensures ParseInt(IntToString(n)) == Some(n)
  {
    if n < 0 {
      NatToStringDigits(-n);
      var s := "-" + NatToString(-n);
      NoSpaceLeft(s);
      NoSpaceRight(s);
      assert s[1..] == NatToString(-n);
    } else {
      NatToStringDigits(n);
      var s := NatToString(n);
      NoSpaceLeft(s);
      NoSpaceRight(s);
    }
  }

  /** The index of the first key whose lower-case form is `target`. */
  function FirstKey(entries: seq<(string, JVal)>, target: string): (r: Option<nat>)
    ensures r.None? <==> forall i :: 0 <= i < |entries| ==> Lower(entries[i].0) != target
    ensures r.Some? ==> (r.value < |entries| && Lower(entries[r.value].0) == target &&
      forall j :: 0 <= j < r.value ==> Lower(entries[j].0) != target)
    decreases |entries|
  {
    if entries == [] then None
    else if Lower(entries[0].0) == target then Some(0)
    else
      var rest := FirstKey(entries[1..], target);
      assert forall i :: 0 < i < |entries| ==> entries[i] == entries[1..][i - 1];
      if rest.Some? then Some(rest.value + 1) else None
  }

  /** The primary key the value under key `k` gives: `int(value)`, else `value['id']`;
      a nested object without 'id' is a validation error on `k`, any other value a
      TypeError. */
  function PrimaryKey(k: string, value: JVal): (r: Result<JVal, BarcodeError>)
    ensures IntOf(value).Some? ==> r == Ok(JInt(IntOf(value).value))
    ensures IntOf(value).None? && value.JDict? && Get(value.entries, "id").Some? ==> r == Ok(Get(value.entries, "id").value)
    ensures IntOf(value).None? && value.JDict? && Get(value.entries, "id").None? ==>
      r == Err(ValidationError(k, "id parameter not supplied"))
    ensures IntOf(value).None? && !value.JDict? ==> r == Err(TypeError)
  {
    match IntOf(value)
    case Some(pk) => Ok(JInt(pk))
    case None =>
      if !value.JDict? then Err(TypeError)
      else match Get(value.entries, "id")
        case None => Err(ValidationError(k, "id parameter not supplied"))
        case Some(id) => Ok(id)
  }

  /** `getStockItem`, `getStockLocation` and `getPart` share this shape: the first key
      matching `target` case-insensitively decides; no such key gives none. The
      primary key goes to the ORM lookup, which converts it with `int()`: an object or
      a list there raises TypeError, which the lookup does not catch; any other pk
      that is not an integer, or names no object, is a validation error on that key.
      Data that is not an object has no keys to scan. */
  function GetObject<T(==)>(data: JVal, target: string, missing: string, table: map<int, T>): (r: Result<Option<T>, BarcodeError>)
    ensures !data.JDict? <==> r == Err(AttributeError)
    ensures r == Ok(None) <==> data.JDict? && FirstKey(data.entries, target).None?
    ensures r.Ok? && r.value.Some? ==> r.value.value in table.Values
  {
    if !data.JDict? then Err(AttributeError)
    else match FirstKey(data.entries, target)
      case None => Ok(None)
      case Some(i) =>
        var (k, v) := data.entries[i];
        match PrimaryKey(k, v)
        case Err(e) => Err(e)
        case Ok(pk) =>
          if pk.JDict? || pk.JList? then Err(TypeError)
          else if IntOf(pk).Some? && IntOf(pk).value in table then Ok(Some(table[IntOf(pk).value]))
          else Err(ValidationError(k, missing))
  }

  /** The key that decides: the first whose lower-case form is the target. Its value's
      integer form finds the object, or is a validation error naming that key as given;
      a nested object's 'id' is used the same way; a nested object without 'id' is a
      validation error, and any other value that is not an integer a TypeError. */
  lemma LookupByFirstKey<T>(entries: seq<(string, JVal)>, target: string, missing: string, table: map<int, T>, i: nat)
    requires i < |entries| && Lower(entries[i].0) == target
    requires forall j :: 0 <= j < i ==> Lower(entries[j].0) != target
    ensures var (k, v) := entries[i];
      var r := GetObject(JDict(entries), target, missing, table);
      && (IntOf(v).Some? && IntOf(v).value in table ==> r == Ok(Some(table[IntOf(v).value])))
      && (IntOf(v).Some? && IntOf(v).value !in table ==> r == Err(ValidationError(k, missing)))
      && (v.JDict? && Get(v.entries, "id").Some? ==>
            var id := Get(v.entries, "id").value;
            (IntOf(id).Some? && IntOf(id).value in table ==> r == Ok(Some(table[IntOf(id).value]))) &&
            (id.JDict? || id.JList? ==> r == Err(TypeError)) &&
            (!(IntOf(id).Some? && IntOf(id).value in table) && !id.JDict? && !id.JList? ==>
              r == Err(ValidationError(k, missing))))
      && (v.JDict? && Get(v.entries, "id").None? ==> r == Err(ValidationError(k, "id parameter not supplied")))
      && (IntOf(v).None? && !v.JDict? ==> r == Err(TypeError))
  {
    assert FirstKey(entries, target) == Some(i);
  }

  /** `getStockItem`. */
  function GetStockItem<T(==)>(data: JVal, stockItems: map<int, T>): (r: Result<Option<T>, BarcodeError>)
    ensures r == Ok(None) <==> data.JDict? && forall i :: 0 <= i < |data.entries| ==> Lower(data.entries[i].0) != "stockitem"
    ensures r.Ok? && r.value.Some? ==> r.value.value in stockItems.Values
  {
    GetObject(data, "stockitem", "Stock item does not exist", stockItems)
  }

  /** `getStockLocation`. */
  function GetStockLocation<T(==)>(data: JVal, locations: map<int, T>): (r: Result<Option<T>, BarcodeError>)
    ensures r == Ok(None) <==> data.JDict? && forall i :: 0 <= i < |data.entries| ==> Lower(data.entries[i].0) != "stocklocation"
    ensures r.Ok? && r.value.Some? ==> r.value.value in locations.Values
  {
    GetObject(data, "stocklocation", "Stock location does not exist", locations)
  }

  /** `getPart`. */
  function GetPart<T(==)>(data: JVal, parts: map<int, T>): (r: Result<Option<T>, BarcodeError>)
    ensures r == Ok(None) <==> data.JDict? && forall i :: 0 <= i < |data.entries| ==> Lower(data.entries[i].0) != "part"
    ensures r.Ok? && r.value.Some? ==> r.value.value in parts.Values
  {
    GetObject(data, "part", "Part does not exist", parts)
  }

  /** An integer primary key under a key of any letter case finds the object. */
  lemma FoundByIntegerKey<T>(k: string, pk: int, rest: seq<(string, JVal)>, table: map<int, T>)
    requires Lower(k) == "part" && pk in table
    ensures GetPart(JDict([(k, JInt(pk))] + rest), table) == Ok(Some(table[pk]))
  {
  }

  /** The decimal text of a primary key, or a nested object carrying it as 'id', finds
      the same object as the integer itself. */
  lemma TextAndNestedKeys<T>(k: string, pk: int, table: map<int, T>)
    requires Lower(k) == "stockitem"
    ensures GetStockItem(JDict([(k, JStr(IntToString(pk)))]), table) == GetStockItem(JDict([(k, JInt(pk))]), table)
    ensures GetStockItem(JDict([(k, JDict([("id", JInt(pk))]))]), table) == GetStockItem(JDict([(k, JInt(pk))]), table)
  {
    ParseIntRoundTrip(pk);
  }

  /** A nested object without 'id' is reported against the key as given, not its
      lower-case form. */
  lemma MissingIdReported<T>(k: string, table: map<int, T>)
    requires Lower(k) == "stocklocation"
    ensures GetStockLocation(JDict([(k, JDict([("pk", JInt(1))]))]), table) ==
      Err(ValidationError(k, "id parameter not supplied"))
  {
  }

  /** The plugin, holding the scanned data. */
  class InvenTreeBarcodePlugin {
    var data: JVal

    constructor (data: JVal)
      ensures this.data == data
    {
      this.data := data;
    }

    /** `validate`: an object is accepted whatever its keys; a string is parsed as JSON
        (`parse` gives none when decoding fails) and replaces the data, and is accepted
        only if it decoded to an object; anything else is rejected. */
    method Validate(parse: string -> Option<JVal>) returns (ok: bool)
      modifies this
      ensures ok ==> data.JDict?
      ensures old(data).JDict? ==> ok && data == old(data)
      ensures old(data).JStr? && parse(old(data).s).None? ==> !ok && data == old(data)
      ensures old(data).JStr? && parse(old(data).s).Some? ==>
        data == parse(old(data).s).value && (ok <==> data.JDict?)
      ensures !old(data).JDict? && !old(data).JStr? ==> !ok && data == old(data)
    {
      match data {
        case JDict(_) =>
          ok := true;
        case JStr(s) =>
          match parse(s) {
            case None =>
              ok := false;
            case Some(v) =>
              data := v;
              ok := v.JDict?;
          }
        case _ =>
          ok := false;
      }
    }
  }

  /** Once validated, the lookups never fail for lack of keys. */
  lemma ValidatedDataHasKeys<T>(data: JVal, target: string, missing: string, table: map<int, T>)
    requires data.JDict?
    ensures GetObject(data, target, missing, table) != Err(AttributeError)
  {
  }
}
