/** The status codes of a data-import session, a concrete `StatusCode` enum.
    Labels are the untranslated English strings. */
module DataImportStatus {
  import opened Wrappers
  import opened StatusCodes

  const Initial: Member := Member("INITIAL", PyInt(0), PyStr("Initial"), PyStr("secondary"))
  const Mapping: Member := Member("MAPPING", PyInt(10), PyStr("Mapping"), PyStr("primary"))
  const Importing: Member := Member("IMPORTING", PyInt(20), PyStr("Importing"), PyStr("primary"))
  const Processing: Member := Member("PROCESSING", PyInt(30), PyStr("Processing"), PyStr("primary"))
  const Complete: Member := Member("COMPLETE", PyInt(40), PyStr("Complete"), PyStr("success"))

  /** `DataImportStatusCode`, its members in declaration order. */
  const DataImportStatusCode: StatusCodeClass :=
    StatusCodeClass([Initial, Mapping, Importing, Processing, Complete])

  /** Each member is what `StatusCode.__new__` builds from its declaration tuple
      `value, label, colour`. */
  lemma Constructed()
    ensures Initial == NewMember("INITIAL", [PyInt(0), PyStr("Initial"), PyStr("secondary")])
    ensures Mapping == NewMember("MAPPING", [PyInt(10), PyStr("Mapping"), PyStr("primary")])
    ensures Importing == NewMember("IMPORTING", [PyInt(20), PyStr("Importing"), PyStr("primary")])
    ensures Processing == NewMember("PROCESSING", [PyInt(30), PyStr("Processing"), PyStr("primary")])
    ensures Complete == NewMember("COMPLETE", [PyInt(40), PyStr("Complete"), PyStr("success")])
  {
  }

  /** Every declared member is a status code, and no declaration is an alias. */
  lemma {:induction false} AllDeclaredAreCodes()
    ensures Elements(DataImportStatusCode) == [Initial, Mapping, Importing, Processing, Complete]
  {
    assert IsElement(Initial) && IsElement(Mapping) && IsElement(Importing) by {
      assert Strings.Upper("INITIAL") == "INITIAL";
      assert Strings.Upper("MAPPING") == "MAPPING";
      assert Strings.Upper("IMPORTING") == "IMPORTING";
    }
    assert IsElement(Processing) && IsElement(Complete) by {
      assert Strings.Upper("PROCESSING") == "PROCESSING";
      assert Strings.Upper("COMPLETE") == "COMPLETE";
    }
    ElementsOfWellFormed(DataImportStatusCode);
  }

  /** Exactly five codes, with values 0, 10, 20, 30, 40 in declaration order. */
  lemma FiveCodesInOrder()
    ensures Keys(DataImportStatusCode) == [PyInt(0), PyInt(10), PyInt(20), PyInt(30), PyInt(40)]
  {
    AllDeclaredAreCodes();
    var es := Elements(DataImportStatusCode);
    assert |es| == 5;
    assert es[0].value == PyInt(0) && es[1].value == PyInt(10) && es[2].value == PyInt(20);
    assert es[3].value == PyInt(30) && es[4].value == PyInt(40);
  }

  /** The values strictly increase in declaration order, so they are pairwise distinct
      and a lookup by value is unambiguous. */
  lemma ValuesStrictlyIncrease()
    ensures forall i, j :: 0 <= i < j < |Keys(DataImportStatusCode)| ==>
      Keys(DataImportStatusCode)[i].PyInt? && Keys(DataImportStatusCode)[j].PyInt? &&
      Keys(DataImportStatusCode)[i].i < Keys(DataImportStatusCode)[j].i
  {
    FiveCodesInOrder();
    var ks := Keys(DataImportStatusCode);
    forall i, j | 0 <= i < j < |ks| ensures ks[i].PyInt? && ks[j].PyInt? && ks[i].i < ks[j].i {
      assert ks[i] == PyInt(10 * i) && ks[j] == PyInt(10 * j);
    }
  }

  /** INITIAL is 'secondary', COMPLETE is 'success', the three middle states 'primary'. */
  lemma Colours()
    ensures [Initial.color, Mapping.color, Importing.color, Processing.color, Complete.color] ==
      [PyStr("secondary"), PyStr("primary"), PyStr("primary"), PyStr("primary"), PyStr("success")]
    ensures forall r :: r in List(DataImportStatusCode) && r.color == PyStr("success") ==> r.name == "COMPLETE"
  {
    AllDeclaredAreCodes();
    var ls := List(DataImportStatusCode);
    assert ls == [RecordOf(Initial), RecordOf(Mapping), RecordOf(Importing), RecordOf(Processing), RecordOf(Complete)];
  }

  /** The labels, and a label lookup on each value returns that code's label. */
  lemma LabelsByValue()
    ensures Labels(DataImportStatusCode) ==
      [PyStr("Initial"), PyStr("Mapping"), PyStr("Importing"), PyStr("Processing"), PyStr("Complete")]
    ensures forall i :: 0 <= i < |Keys(DataImportStatusCode)| ==>
      Label(DataImportStatusCode, Keys(DataImportStatusCode)[i]) == Ok(Labels(DataImportStatusCode)[i])
  {
    LabelsInOrder();
    forall i | 0 <= i < |Keys(DataImportStatusCode)|
      ensures Label(DataImportStatusCode, Keys(DataImportStatusCode)[i]) == Ok(Labels(DataImportStatusCode)[i])
    {
      LookupOwnValue(DataImportStatusCode, i);
    }
  }

  /** The labels in declaration order. */
  lemma LabelsInOrder()
    ensures Labels(DataImportStatusCode) ==
      [PyStr("Initial"), PyStr("Mapping"), PyStr("Importing"), PyStr("Processing"), PyStr("Complete")]
  {
    AllDeclaredAreCodes();
    var es := Elements(DataImportStatusCode);
    assert |es| == 5;
  }

  /** `dict(key)` as written fails on a key that names an existing code, while the
      corrected lookup returns that code's record. */
  lemma DictForKeyCounterexample()
    ensures DictForKeyAsWritten(DataImportStatusCode, PyInt(0)) == Err(TypeError)
    ensures DictForKey(DataImportStatusCode, PyInt(0)) ==
      map["INITIAL" := CodeRecord(PyStr("secondary"), PyInt(0), PyStr("Initial"), "INITIAL")]
  {
    AllDeclaredAreCodes();
    assert Values(DataImportStatusCode, PyInt(0)) == Some(Initial);
  }

  /** The None key is the "no key" default of `values`: `dict(None)` is the full
      dictionary, with an entry per code name, while `render(None)`, `text(None)` and
      `label(None)` raise AttributeError, because the class has status codes. */
  lemma NoneKeyIsNoKey()
    ensures DictForKeyAsWritten(DataImportStatusCode, PyNone) == Ok(Dict(DataImportStatusCode))
    ensures Dict(DataImportStatusCode).Keys == {"INITIAL", "MAPPING", "IMPORTING", "PROCESSING", "COMPLETE"}
    ensures Render(DataImportStatusCode, PyNone) == Err(AttributeError)
    ensures Text(DataImportStatusCode, PyNone) == Err(AttributeError)
    ensures Label(DataImportStatusCode, PyNone) == Err(AttributeError)
  {
    AllDeclaredAreCodes();
    NameKeys([Initial, Mapping, Importing, Processing, Complete]);
  }
}
