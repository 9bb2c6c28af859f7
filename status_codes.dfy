/** The generic status-code enumeration of InvenTree: an enum whose members carry a
    value, a label and a colour, with class-level lookups and projections over the
    members that count as status codes. Python values that flow through it are
    modelled by `PyValue`; an enum class is the sequence of its member declarations. */
module StatusCodes {
  import opened Wrappers
  import opened Strings

  /** The Python values that occur as member values, labels, colours and lookup keys. */
  datatype PyValue = PyInt(i: int) | PyStr(s: string) | PyNone

  /** One enum member: its attribute name and the attributes `StatusCode.__new__` set. */
  datatype Member = Member(name: string, value: PyValue, labelValue: PyValue, color: PyValue)

  /** An enum class, given by its member declarations in source order. */
  datatype StatusCodeClass = StatusCodeClass(declared: seq<Member>)

  /** One record of `dict()` / `list()`. */
  datatype CodeRecord = CodeRecord(color: PyValue, key: PyValue, labelValue: PyValue, name: string)

  /** What `render` returns: the key passed back, or the HTML badge. */
  datatype Rendered = PassedBack(key: PyValue) | Badge(html: string)

  /** The right operand of `==` / `!=` on a member: another member of the same enum
      class, or a raw value of some other type. */
  datatype Operand = SameClass(member: Member) | Raw(v: PyValue)

  /** The error a call raises. */
  datatype PyError = TypeError | AttributeError

  /** `StatusCode.__new__(*args)` for the declaration `name = args`: with one argument
      the label is the value itself and the colour 'secondary'; otherwise the label is
      the second argument and the colour the third, defaulting to 'secondary'. */
  function NewMember(name: string, args: seq<PyValue>): (m: Member)
    requires |args| > 0
    ensures m.name == name && m.value == args[0]
    ensures |args| == 1 ==> m.labelValue == m.value && m.color == PyStr("secondary")
    ensures |args| > 1 ==> m.labelValue == args[1]
    ensures m.color == (if |args| > 2 then args[2] else PyStr("secondary"))
  {
    if |args| == 1 then Member(name, args[0], args[0], PyStr("secondary"))
    else Member(name, args[0], args[1], if |args| > 2 then args[2] else PyStr("secondary"))
  }

  /** Python's `Enum.__eq__` as overridden by `BaseEnum`: a member of the same class is
      equal only to itself; any other operand is compared with the member's value. */
  function Eq(self: Member, obj: Operand): bool {
    match obj
    case SameClass(o) => self == o
    case Raw(v) => self.value == v
  }

  /** `BaseEnum.__ne__`. */
  function Ne(self: Member, obj: Operand): bool {
    match obj
    case SameClass(o) => self != o
    case Raw(v) => self.value != v
  }

  /** `__ne__` is the exact negation of `__eq__`, and against a raw value equality is
      equality of the member's value. */
  lemma NeIsNotEq(self: Member, obj: Operand)
    ensures Ne(self, obj) == !Eq(self, obj)
    ensures obj.Raw? ==> (Eq(self, obj) <==> self.value == obj.v)
  {
  }

  /** `xs` is `ys` with some elements left out, the rest kept in order. */
  predicate IsSubsequence<T(==)>(xs: seq<T>, ys: seq<T>)
    decreases |ys|
  {
    if xs == [] then true
    else if ys == [] then false
    else (xs[0] == ys[0] && IsSubsequence(xs[1..], ys[1..])) || IsSubsequence(xs, ys[1..])
  }

  /** The declaration at position i takes a value that neither `seen` nor an earlier
      declaration holds: it is the canonical member for that value. */
  predicate FirstOfItsValue(decls: seq<Member>, seen: set<PyValue>, i: int)
    requires 0 <= i < |decls|
  {
    decls[i].value !in seen && forall j :: 0 <= j < i ==> decls[j].value != decls[i].value
  }

  /** Declarations whose value repeats an earlier one (in `seen` or before them) are
      aliases in a Python enum and are skipped when the class is iterated. */
  function CanonicalFrom(decls: seq<Member>, seen: set<PyValue>): (ms: seq<Member>)
    ensures forall m :: m in ms ==> m in decls && m.value !in seen
    ensures forall i, j :: 0 <= i < j < |ms| ==> ms[i].value != ms[j].value
    decreases |decls|
  {
    if decls == [] then []
    else if decls[0].value in seen then CanonicalFrom(decls[1..], seen)
    else [decls[0]] + CanonicalFrom(decls[1..], seen + {decls[0].value})
  }

  /** Iteration skips nothing but aliases: every declaration whose value is new is
      visited, and the visited members keep their declaration order. */
  lemma {:induction false} CanonicalVisitsFirsts(decls: seq<Member>, seen: set<PyValue>)
    ensures forall i :: 0 <= i < |decls| && FirstOfItsValue(decls, seen, i) ==> decls[i] in CanonicalFrom(decls, seen)
    ensures IsSubsequence(CanonicalFrom(decls, seen), decls)
    decreases |decls|
  {
    if decls != [] {
      var seenNext := if decls[0].value in seen then seen else seen + {decls[0].value};
      CanonicalVisitsFirsts(decls[1..], seenNext);
      assert forall i :: 1 <= i < |decls| && FirstOfItsValue(decls, seen, i) ==>
        FirstOfItsValue(decls[1..], seenNext, i - 1) && decls[1..][i - 1] == decls[i];
    }
  }

  /** The members `for itm in cls` visits, in declaration order. */
  function Members(cls: StatusCodeClass): seq<Member> {
    CanonicalFrom(cls.declared, {})
  }

  /** `_is_element`: a member is a status code iff its name does not start with '_',
      its name is already upper case, and its value is an int. */
  predicate IsElement(m: Member) {
    !(|m.name| > 0 && m.name[0] == '_') && m.name == Upper(m.name) && m.value.PyInt?
  }

  function FilterElements(ms: seq<Member>): (es: seq<Member>)
  {
    if ms == [] then []
    else if IsElement(ms[0]) then [ms[0]] + FilterElements(ms[1..])
    else FilterElements(ms[1..])
  }

  /** The filter keeps exactly the members that are status codes. */
  lemma {:induction false} FilterElementsSpec(ms: seq<Member>)
    ensures forall m :: m in FilterElements(ms) <==> m in ms && IsElement(m)
    ensures |FilterElements(ms)| <= |ms|
    decreases |ms|
  {
    if ms != [] {
      FilterElementsSpec(ms[1..]);
      assert forall m :: m in ms <==> m == ms[0] || m in ms[1..];
    }
  }

  /** `values()` with no key: the status codes, in declaration order. */
  function Elements(cls: StatusCodeClass): seq<Member> {
    FilterElements(Members(cls))
  }

  /** The first member of `es` whose value equals `key`. */
  function FirstWithValue(es: seq<Member>, key: PyValue): (r: Option<Member>)
    ensures r.None? <==> forall m :: m in es ==> m.value != key
    ensures r.Some? ==> r.value in es && r.value.value == key
    ensures r.Some? && |es| > 0 && es[0].value == key ==> r.value == es[0]
  {
    if es == [] then None
    else if es[0].value == key then Some(es[0])
    else FirstWithValue(es[1..], key)
  }

  /** `values(key)` for a key other than None: the first status code whose value
      equals `key`, or None. A None key is the parameter's default and makes
      `values` return the whole list `Elements(cls)` instead; every caller below
      takes that path separately. */
  function Values(cls: StatusCodeClass, key: PyValue): Option<Member> {
    FirstWithValue(Elements(cls), key)
  }

  /** Python's `str()` on the values a badge interpolates. */
  function Str(v: PyValue): string {
    match v
    case PyInt(i) => IntToString(i)
    case PyStr(s) => s
    case PyNone => "None"
  }

  function BadgeHtml(m: Member): string {
    "<span class='badge rounded-pill bg-" + Str(m.color) + "'>" + Str(m.labelValue) + "</span>"
  }

  /** `render(key)`. A None key makes `values` return the list of status codes: an
      empty list is falsy and None is passed back, while reading `.color` on a
      non-empty list raises AttributeError. Any other unknown key is passed back
      unchanged; a known one becomes a badge carrying that code's colour and label. */
  function Render(cls: StatusCodeClass, key: PyValue): (r: Result<Rendered, PyError>)
    ensures key.PyNone? ==> (r.Ok? <==> Elements(cls) == [])
    ensures r.Err? ==> r.error == AttributeError && key.PyNone?
    ensures r.Ok? && r.value.PassedBack? ==> r.value.key == key
    ensures !key.PyNone? ==> (r.Ok? && r.value.PassedBack? <==> forall m :: m in Elements(cls) ==> m.value != key)
    ensures r.Ok? && r.value.Badge? ==> !key.PyNone? && var m := Values(cls, key).value;
      m in Elements(cls) && m.value == key && r.value.html == BadgeHtml(m)
  {
    if key.PyNone? then
      if Elements(cls) == [] then Ok(PassedBack(key)) else Err(AttributeError)
    else match Values(cls, key)
      case None => Ok(PassedBack(key))
      case Some(item) => Ok(Badge(BadgeHtml(item)))
  }

  /** `text(key)`: the label of the matching code, otherwise the key itself. A None
      key makes `values` return the list, which is not None and has no `.label`. */
  function Text(cls: StatusCodeClass, key: PyValue): Result<PyValue, PyError> {
    if key.PyNone? then Err(AttributeError)
    else match Values(cls, key)
      case None => Ok(key)
      case Some(item) => Ok(item.labelValue)
  }

  /** `label(key)`: the same lookup as `text`. */
  function Label(cls: StatusCodeClass, key: PyValue): Result<PyValue, PyError> {
    if key.PyNone? then Err(AttributeError)
    else match Values(cls, key)
      case None => Ok(key)
      case Some(item) => Ok(item.labelValue)
  }

  /** `items()`: (value, label) per status code. */
  function Items(cls: StatusCodeClass): seq<(PyValue, PyValue)> {
    var es := Elements(cls);
    seq(|es|, i requires 0 <= i < |es| => (es[i].value, es[i].labelValue))
  }

  /** `keys()`: the value of each status code. */
  function Keys(cls: StatusCodeClass): seq<PyValue> {
    var es := Elements(cls);
    seq(|es|, i requires 0 <= i < |es| => es[i].value)
  }

  /** `labels()`: the label of each status code. */
  function Labels(cls: StatusCodeClass): seq<PyValue> {
    var es := Elements(cls);
    seq(|es|, i requires 0 <= i < |es| => es[i].labelValue)
  }

  /** The dict comprehension `{x.name: x.value for x in es}`: later entries win. */
  function NameMap(es: seq<Member>): map<string, PyValue>
    decreases |es|
  {
    if es == [] then map[]
    else NameMap(es[..|es| - 1])[es[|es| - 1].name := es[|es| - 1].value]
  }

  /** `names()`: each status code's name mapped to its value. */
  function Names(cls: StatusCodeClass): map<string, PyValue> {
    NameMap(Elements(cls))
  }

  function RecordOf(m: Member): CodeRecord {
    CodeRecord(m.color, m.value, m.labelValue, m.name)
  }

  /** The dict comprehension of `dict()` over the given members: later entries win. */
  function RecordMap(es: seq<Member>): map<string, CodeRecord>
    decreases |es|
  {
    if es == [] then map[]
    else RecordMap(es[..|es| - 1])[es[|es| - 1].name := RecordOf(es[|es| - 1])]
  }

  /** `dict()`: each status code's name mapped to its record. */
  function Dict(cls: StatusCodeClass): map<string, CodeRecord> {
    RecordMap(Elements(cls))
  }

  /** `list()`: the values of `dict()` in insertion order, one record per status code. */
  function List(cls: StatusCodeClass): seq<CodeRecord> {
    var es := Elements(cls);
    seq(|es|, i requires 0 <= i < |es| => RecordOf(es[i]))
  }

  /** `dict(key)` as written. The default key None iterates over the whole list of
      status codes; any other key iterates over what `values(key)` returns, a single
      member or None, neither of which is iterable in Python. */
  function DictForKeyAsWritten(cls: StatusCodeClass, key: PyValue): (r: Result<map<string, CodeRecord>, PyError>)
    ensures r.Ok? <==> key.PyNone?
    ensures r.Err? ==> r.error == TypeError
    ensures r.Ok? ==> r.value.Keys == set m | m in Elements(cls) :: m.name
  {
    NameKeys(Elements(cls));
    if key.PyNone? then Ok(Dict(cls)) else Err(TypeError)
  }

  /** `dict(key)` as evidently intended: the records of the status codes whose value is `key`. */
  function DictForKey(cls: StatusCodeClass, key: PyValue): map<string, CodeRecord> {
    match Values(cls, key)
    case None => map[]
    case Some(item) => map[item.name := RecordOf(item)]
  }

  /** The members visited by iteration have pairwise distinct values, so no status
      code value repeats in `keys()`. */
  lemma KeysDistinct(cls: StatusCodeClass)
    ensures forall i, j :: 0 <= i < j < |Keys(cls)| ==> Keys(cls)[i] != Keys(cls)[j]
  {
    SubsequenceDistinct(Members(cls));
  }

  lemma {:induction false} SubsequenceDistinct(ms: seq<Member>)
    requires forall i, j :: 0 <= i < j < |ms| ==> ms[i].value != ms[j].value
    ensures forall i, j :: 0 <= i < j < |FilterElements(ms)| ==>
      FilterElements(ms)[i].value != FilterElements(ms)[j].value
    decreases |ms|
  {
    if ms != [] {
      SubsequenceDistinct(ms[1..]);
      FilterElementsSpec(ms[1..]);
      var rest := FilterElements(ms[1..]);
      forall m | m in rest ensures m.value != ms[0].value {
        var k :| 0 <= k < |ms[1..]| && ms[1..][k] == m;
        assert ms[k + 1] == m;
      }
    }
  }

  /** A code is only ever found by its own value: for every status code, `values`,
      `text`, `label` and `render` on its value report that code. */
  lemma LookupOwnValue(cls: StatusCodeClass, i: nat)
    requires i < |Elements(cls)|
    ensures Values(cls, Elements(cls)[i].value) == Some(Elements(cls)[i])
    ensures Text(cls, Elements(cls)[i].value) == Ok(Elements(cls)[i].labelValue)
    ensures Label(cls, Elements(cls)[i].value) == Ok(Elements(cls)[i].labelValue)
    ensures Render(cls, Elements(cls)[i].value) == Ok(Badge(BadgeHtml(Elements(cls)[i])))
  {
    SubsequenceDistinct(Members(cls));
    FirstUniqueMatch(Elements(cls), i);
    FilterElementsSpec(Members(cls));
    assert Elements(cls)[i] in Elements(cls);
  }

  lemma {:induction false} FirstUniqueMatch(es: seq<Member>, i: nat)
    requires i < |es|
    requires forall a, b :: 0 <= a < b < |es| ==> es[a].value != es[b].value
    ensures FirstWithValue(es, es[i].value) == Some(es[i])
    decreases i
  {
    if i > 0 {
      assert es[0].value != es[i].value;
      assert es[1..][i - 1] == es[i];
      FirstUniqueMatch(es[1..], i - 1);
    }
  }

  /** `text` and `label` agree on every key. The None key raises AttributeError in
      every class, even one without status codes; any other unknown key comes back
      unchanged, and a known one gives that code's label. */
  lemma TextIsLabel(cls: StatusCodeClass, key: PyValue)
    ensures Text(cls, key) == Label(cls, key)
    ensures Text(cls, key).Err? <==> key.PyNone?
    ensures Text(cls, key).Err? ==> Text(cls, key).error == AttributeError
    ensures !key.PyNone? && (forall m :: m in Elements(cls) ==> m.value != key) ==> Text(cls, key) == Ok(key)
    ensures !key.PyNone? && Values(cls, key).Some? ==> Text(cls, key) == Ok(Values(cls, key).value.labelValue)
  {
  }

  /** Members that are not status codes (private `_TAG`-style names, lower-case names,
      non-int values) never surface through `values()`, `keys()` or `labels()`. */
  lemma NonElementsHidden(cls: StatusCodeClass, m: Member)
    requires m in cls.declared && !IsElement(m)
    ensures m !in Elements(cls)
    ensures !m.value.PyInt? ==> m.value !in Keys(cls)
  {
    FilterElementsSpec(Members(cls));
  }

  /** The parallel projections line up: `items()[i] == (keys()[i], labels()[i])`. */
  lemma ItemsZipKeysLabels(cls: StatusCodeClass)
    ensures |Items(cls)| == |Keys(cls)| == |Labels(cls)| == |Elements(cls)|
    ensures forall i :: 0 <= i < |Items(cls)| ==> Items(cls)[i] == (Keys(cls)[i], Labels(cls)[i])
  {
  }

  /** Declarations with pairwise distinct values, none already seen, have no aliases. */
  lemma {:induction false} CanonicalWhenDistinct(ds: seq<Member>, seen: set<PyValue>)
    requires forall i, j :: 0 <= i < j < |ds| ==> ds[i].value != ds[j].value
    requires forall i :: 0 <= i < |ds| ==> ds[i].value !in seen
    ensures CanonicalFrom(ds, seen) == ds
    decreases |ds|
  {
    if ds != [] {
      CanonicalWhenDistinct(ds[1..], seen + {ds[0].value});
      assert [ds[0]] + ds[1..] == ds;
    }
  }

  lemma {:induction false} FilterKeepsElements(ms: seq<Member>)
    requires forall i :: 0 <= i < |ms| ==> IsElement(ms[i])
    ensures FilterElements(ms) == ms
    decreases |ms|
  {
    if ms != [] {
      FilterKeepsElements(ms[1..]);
      assert [ms[0]] + ms[1..] == ms;
    }
  }

  /** A class whose declarations all qualify as status codes and have distinct values
      lists every declaration, in order, as a status code. */
  lemma ElementsOfWellFormed(cls: StatusCodeClass)
    requires forall i, j :: 0 <= i < j < |cls.declared| ==> cls.declared[i].value != cls.declared[j].value
    requires forall i :: 0 <= i < |cls.declared| ==> IsElement(cls.declared[i])
    ensures Elements(cls) == cls.declared
  {
    CanonicalWhenDistinct(cls.declared, {});
    FilterKeepsElements(cls.declared);
  }

  /** Element names are distinct: Python forbids two members with one name. */
  predicate DistinctNames(es: seq<Member>) {
    forall i, j :: 0 <= i < j < |es| ==> es[i].name != es[j].name
  }

  /** `names()` and `dict()` have one key per status-code name. */
  lemma {:induction false} NameKeys(es: seq<Member>)
    ensures NameMap(es).Keys == set x | x in es :: x.name
    ensures RecordMap(es).Keys == set x | x in es :: x.name
    decreases |es|
  {
    if es != [] {
      var init := es[..|es| - 1];
      NameKeys(init);
      assert es == init + [es[|es| - 1]];
      assert forall x :: x in es <==> x in init || x == es[|es| - 1];
    }
  }

  /** With distinct names, `names()` maps each code's name to its value. */
  lemma {:induction false} NameMapAt(es: seq<Member>, i: nat)
    requires i < |es| && DistinctNames(es)
    ensures es[i].name in NameMap(es) && NameMap(es)[es[i].name] == es[i].value
    decreases |es|
  {
    if i < |es| - 1 {
      NameMapAt(es[..|es| - 1], i);
    }
  }

  /** With distinct names, `dict()` maps each code's name to its own record, and
      `list()` is that record per code in declaration order. */
  lemma {:induction false} RecordMapAt(es: seq<Member>, i: nat)
    requires i < |es| && DistinctNames(es)
    ensures es[i].name in RecordMap(es) && RecordMap(es)[es[i].name] == RecordOf(es[i])
    decreases |es|
  {
    if i < |es| - 1 {
      RecordMapAt(es[..|es| - 1], i);
    }
  }

  /** `names()`, `dict()` and `list()` agree with the elements they are built from:
      one entry per status code, keyed by its name, holding its own colour, value,
      label and name. */
  lemma NamesDictList(cls: StatusCodeClass, i: nat)
    requires DistinctNames(Elements(cls)) && i < |Elements(cls)|
    ensures Elements(cls)[i].name in Names(cls) && Names(cls)[Elements(cls)[i].name] == Elements(cls)[i].value
    ensures Elements(cls)[i].name in Dict(cls) && Dict(cls)[Elements(cls)[i].name] == List(cls)[i]
    ensures List(cls)[i] == CodeRecord(Elements(cls)[i].color, Elements(cls)[i].value,
                                       Elements(cls)[i].labelValue, Elements(cls)[i].name)
  {
    NameMapAt(Elements(cls), i);
    RecordMapAt(Elements(cls), i);
  }

  /** The corrected `dict(key)` holds the records of exactly the status codes whose
      value is `key`: a name is a key of it iff some code with that value carries
      the name, and every such code's name maps to that code's own record. */
  lemma DictForKeyMatches(cls: StatusCodeClass, key: PyValue)
    ensures forall n :: n in DictForKey(cls, key) <==>
      exists m :: m in Elements(cls) && m.value == key && m.name == n
    ensures forall m :: m in Elements(cls) && m.value == key ==>
      m.name in DictForKey(cls, key) && DictForKey(cls, key)[m.name] == RecordOf(m)
  {
    var es := Elements(cls);
    SubsequenceDistinct(Members(cls));
    forall m | m in es && m.value == key
      ensures m.name in DictForKey(cls, key) && DictForKey(cls, key)[m.name] == RecordOf(m)
    {
      var i :| 0 <= i < |es| && es[i] == m;
      FirstUniqueMatch(es, i);
    }
  }
}
