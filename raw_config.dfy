/**
 * One tab of the raw configuration editor: the options of one configuration
 * section, each shown in an editor chosen by the option's type and tagged
 * with that type, written back into the section on save, and removable
 * (set to None) one by one.
 */
module RawConfig {
  import opened Options

  /** `sys.maxint` of a 64-bit Python 2, the spin box's range bound. */
  const SYS_MAXINT: int := 0x7FFF_FFFF_FFFF_FFFF

  /** A configuration value, by its Python type. */
  datatype ConfigValue =
    | Str(s: string)
    | Unicode(s: string)
    | Bool(b: bool)
    | Int(i: int)
    | Float(x: real)
    | ListV(items: seq<ConfigValue>)
    | TupleV(items: seq<ConfigValue>)
    | NoneV
    | Other

  /** The Python type objects a row can carry as its tag. */
  datatype PyType = UnicodeT | StrT | BoolT | IntT | FloatT | ListT | TupleT | NoneT | OtherT

  /** `type(v)`. */
  function TypeOf(v: ConfigValue): PyType {
    match v
    case Str(_) => StrT
    case Unicode(_) => UnicodeT
    case Bool(_) => BoolT
    case Int(_) => IntT
    case Float(_) => FloatT
    case ListV(_) => ListT
    case TupleV(_) => TupleT
    case NoneV => NoneT
    case Other => OtherT
  }

  /** `isinstance(v, basestring)`. */
  predicate IsText(v: ConfigValue) {
    v.Str? || v.Unicode?
  }

  /** Items `','.join` accepts: every one a string. */
  predicate AllText(items: seq<ConfigValue>) {
    forall j :: 0 <= j < |items| ==> IsText(items[j])
  }

  /** No string of the list holds a comma. */
  predicate CommaFree(items: seq<ConfigValue>)
    requires AllText(items)
  {
    forall j :: 0 <= j < |items| ==> ',' !in items[j].s
  }

  /** The character data of a list of strings. */
  function Texts(items: seq<ConfigValue>): (ts: seq<string>)
    requires AllText(items)
    ensures |ts| == |items|
    ensures forall j :: 0 <= j < |items| ==> ts[j] == items[j].s
  {
    if items == [] then [] else [items[0].s] + Texts(items[1..])
  }

  /** Every part as a unicode value, as `QString.split` returns them. */
  function Unicodes(parts: seq<string>): (vs: seq<ConfigValue>)
    ensures |vs| == |parts|
    ensures forall j :: 0 <= j < |parts| ==> vs[j] == Unicode(parts[j])
  {
    if parts == [] then [] else [Unicode(parts[0])] + Unicodes(parts[1..])
  }

  // ----- Joining on load, splitting on save -----

  /** `','.join(parts)`. */
  function Join(parts: seq<string>): string {
    if |parts| == 0 then ""
    else if |parts| == 1 then parts[0]
    else parts[0] + "," + Join(parts[1..])
  }

  /** `s.split(',')`: always at least one part, the empty string giving `[""]`. */
  function Split(s: string): (parts: seq<string>)
    ensures |parts| >= 1
  {
    if s == [] then [""]
    else
      var rest := Split(s[1..]);
      if s[0] == ',' then [""] + rest
      else [[s[0]] + rest[0]] + rest[1..]
  }

  /** A comma-free prefix stays glued to the first part. */
  lemma {:induction false} SplitPrepend(a: string, rest: string)
    requires ',' !in a
    ensures Split(a + rest) == [a + Split(rest)[0]] + Split(rest)[1..]
  {
    if a == [] {
      assert a + rest == rest;
      assert a + Split(rest)[0] == Split(rest)[0];
      assert Split(rest) == [Split(rest)[0]] + Split(rest)[1..];
    } else {
      var s := a + rest;
      assert s[0] == a[0] && s[0] != ',';
      assert s[1..] == a[1..] + rest;
      SplitPrepend(a[1..], rest);
      assert [s[0]] + (a[1..] + Split(rest)[0]) == a + Split(rest)[0];
    }
  }

  /**
   * Splitting what was joined gives the parts back when none holds a comma
   * and there is at least one; no parts come back as one empty part.
   */
  lemma {:induction false} JoinSplit(parts: seq<string>)
    requires forall j :: 0 <= j < |parts| ==> ',' !in parts[j]
    ensures parts != [] ==> Split(Join(parts)) == parts
    ensures parts == [] ==> Split(Join(parts)) == [""]
  {
    if |parts| == 1 {
      SplitPrepend(parts[0], "");
      assert parts[0] + "" == parts[0];
    } else if |parts| > 1 {
      var tail := Join(parts[1..]);
      JoinSplit(parts[1..]);
      assert Join(parts) == parts[0] + ("," + tail);
      SplitPrepend(parts[0], "," + tail);
      assert ("," + tail)[1..] == tail;
      assert Split("," + tail) == [""] + parts[1..];
      assert parts[0] + "" == parts[0];
    }
  }

  // ----- Rows -----

  /** The editor of a row and what it holds. */
  datatype Editor = LineEdit(text: string) | CheckBox(checked: bool) | SpinBox(value: real)

  /**
   * One option's row: its name, its type tag (None: not saved), its editor,
   * and whether the editor and the remove button are enabled.
   */
  datatype Row = Row(name: string, tp: Option<PyType>, editor: Editor, enabled: bool, buttonEnabled: bool)

  /** The spin box keeps its value within `[-sys.maxint, sys.maxint]`. */
  function SpinValue(x: real): (r: real)
    ensures -(SYS_MAXINT as real) <= r <= SYS_MAXINT as real
    ensures -(SYS_MAXINT as real) <= x <= SYS_MAXINT as real ==> r == x
  {
    if x < -(SYS_MAXINT as real) then -(SYS_MAXINT as real)
    else if x > SYS_MAXINT as real then SYS_MAXINT as real
    else x
  }

  /**
   * The tag `initUI` computes for a value: strings are unicode, booleans are
   * bool (tested before numbers), numbers are int, sequences of strings are
   * list, and everything else is untagged.
   */
  function Classify(v: ConfigValue): (tp: Option<PyType>)
    ensures tp == Some(UnicodeT) <==> IsText(v)
    ensures tp == Some(BoolT) <==> v.Bool?
    ensures tp == Some(IntT) <==> v.Int? || v.Float?
    ensures tp == Some(ListT) <==> (v.ListV? || v.TupleV?) && AllText(v.items)
    ensures tp.Some? ==> tp.value in {UnicodeT, BoolT, IntT, ListT}
  {
    match v
    case Str(_) => Some(UnicodeT)
    case Unicode(_) => Some(UnicodeT)
    case Bool(_) => Some(BoolT)
    case Int(_) => Some(IntT)
    case Float(_) => Some(IntT)
    case ListV(items) => if AllText(items) then Some(ListT) else None
    case TupleV(items) => if AllText(items) then Some(ListT) else None
    case _ => None
  }

  /** The editor a tag calls for. */
  predicate RowFits(r: Row) {
    match r.tp
    case Some(UnicodeT) => r.editor.LineEdit?
    case Some(ListT) => r.editor.LineEdit?
    case Some(BoolT) => r.editor.CheckBox?
    case Some(IntT) => r.editor.SpinBox?
    case _ => true
  }

  /**
   * The editor `initUI` builds for a value: strings and string sequences
   * (joined on commas) in a line edit, booleans in a check box, numbers in
   * a spin box; an untagged value shows in a line edit whose text (a repr)
   * is not modelled.
   */
  function EditorFor(v: ConfigValue): Editor {
    match v
    case Str(s) => LineEdit(s)
    case Unicode(s) => LineEdit(s)
    case Bool(b) => CheckBox(b)
    case Int(i) => SpinBox(SpinValue(i as real))
    case Float(x) => SpinBox(SpinValue(x))
    case ListV(items) => if AllText(items) then LineEdit(Join(Texts(items))) else LineEdit("")
    case TupleV(items) => if AllText(items) then LineEdit(Join(Texts(items))) else LineEdit("")
    case _ => LineEdit("")
  }

  /** A row as `initUI` should build it: tagged with the computed type. */
  function BuildRow(name: string, v: ConfigValue): (r: Row)
    ensures r.name == name && r.tp == Classify(v) && RowFits(r)
    ensures r.enabled <==> r.tp.Some?
    ensures r.buttonEnabled
  {
    var tp := Classify(v);
    Row(name, tp, EditorFor(v), tp.Some?, true)
  }

  /**
   * A row as `initUI` builds it as written: the same editor, but tagged with
   * `type(v)` instead of the computed type.
   */
  function BuildRowAsWritten(name: string, v: ConfigValue): (r: Row)
    ensures r.name == name && r.tp == Some(TypeOf(v)) && RowFits(r)
    ensures r.editor == BuildRow(name, v).editor && r.enabled == BuildRow(name, v).enabled
  {
    BuildRow(name, v).(tp := Some(TypeOf(v)))
  }

  /**
   * What `save` writes for a row: nothing for a disabled or untagged row;
   * otherwise the editor's reading as the tag says (a spin box reads a
   * float, a list's text is split on commas).
   */
  function Written(r: Row): (w: Option<ConfigValue>)
    requires RowFits(r)
    ensures w.Some? <==> r.enabled && r.tp.Some? && r.tp.value in {UnicodeT, BoolT, IntT, ListT}
  {
    if !r.enabled then None
    else match r.tp
      case Some(UnicodeT) => Some(Unicode(r.editor.text))
      case Some(BoolT) => Some(Bool(r.editor.checked))
      case Some(IntT) => Some(Float(r.editor.value))
      case Some(ListT) => Some(ListV(Unicodes(Split(r.editor.text))))
      case _ => None
  }

  predicate AllFit(rows: seq<Row>) {
    forall i :: 0 <= i < |rows| ==> RowFits(rows[i])
  }

  predicate UniqueNames(rows: seq<Row>) {
    forall i, j :: 0 <= i < j < |rows| ==> rows[i].name != rows[j].name
  }

  /** The section after `save` has written every row, in row order. */
  function SaveRows(section: map<string, ConfigValue>, rows: seq<Row>): map<string, ConfigValue>
    requires AllFit(rows)
  {
    if rows == [] then section
    else
      var prev := SaveRows(section, rows[..|rows| - 1]);
      var last := rows[|rows| - 1];
      match Written(last)
      case Some(w) => prev[last.name := w]
      case None => prev
  }

  /** An option without a row keeps its presence and value through `save`. */
  lemma {:induction false} SaveKeepsOthers(section: map<string, ConfigValue>, rows: seq<Row>, k: string)
    requires AllFit(rows)
    requires forall i :: 0 <= i < |rows| ==> rows[i].name != k
    ensures (k in SaveRows(section, rows) <==> k in section)
    ensures k in section ==> SaveRows(section, rows)[k] == section[k]
  {
    if rows != [] {
      SaveKeepsOthers(section, rows[..|rows| - 1], k);
    }
  }

  /** `save` writes only options that have rows, so the keys stay the same. */
  lemma {:induction false} SaveKeepsKeys(section: map<string, ConfigValue>, rows: seq<Row>)
    requires AllFit(rows)
    requires forall i :: 0 <= i < |rows| ==> rows[i].name in section
    ensures SaveRows(section, rows).Keys == section.Keys
  {
    if rows != [] {
      SaveKeepsKeys(section, rows[..|rows| - 1]);
    }
  }

  /**
   * The option of row `i` after `save`: what the row writes, or, for a
   * disabled or untagged row, its value before.
   */
  lemma {:induction false} SaveRowsAt(section: map<string, ConfigValue>, rows: seq<Row>, i: nat)
    requires AllFit(rows) && UniqueNames(rows) && i < |rows|
    ensures Written(rows[i]).Some? ==>
      rows[i].name in SaveRows(section, rows) && SaveRows(section, rows)[rows[i].name] == Written(rows[i]).value
    ensures Written(rows[i]).None? ==>
      (rows[i].name in SaveRows(section, rows) <==> rows[i].name in section)
    ensures Written(rows[i]).None? && rows[i].name in section ==>
      SaveRows(section, rows)[rows[i].name] == section[rows[i].name]
  {
    var prefix := rows[..|rows| - 1];
    if i == |rows| - 1 {
      SaveKeepsOthers(section, prefix, rows[i].name);
    } else {
      SaveRowsAt(section, prefix, i);
    }
  }

  /** After a row is removed, `save` leaves its option None. */
  lemma RemoveThenSave(section: map<string, ConfigValue>, rows: seq<Row>, i: nat)
    requires AllFit(rows) && UniqueNames(rows) && i < |rows|
    ensures var after := rows[i := rows[i].(enabled := false, buttonEnabled := false)];
      && rows[i].name in SaveRows(section[rows[i].name := NoneV], after)
      && SaveRows(section[rows[i].name := NoneV], after)[rows[i].name] == NoneV
  {
    var after := rows[i := rows[i].(enabled := false, buttonEnabled := false)];
    assert AllFit(after) && UniqueNames(after) && after[i].name == rows[i].name;
    SaveRowsAt(section[rows[i].name := NoneV], after, i);
  }

  /** With the computed tag, every enabled row is written back. */
  lemma EnabledRowsAreSaved(name: string, v: ConfigValue)
    ensures Written(BuildRow(name, v)).Some? <==> BuildRow(name, v).enabled
    ensures BuildRow(name, v).enabled <==> Classify(v).Some?
  {
  }

  /**
   * Saving an untouched row writes back the value it was built from, read
   * through its editor: strings as unicode, numbers as (clamped) floats,
   * a non-empty list of comma-free strings as the same list of unicode
   * strings, and an empty list as one empty string.
   */
  lemma UntouchedSave(name: string, v: ConfigValue)
    ensures IsText(v) ==> Written(BuildRow(name, v)) == Some(Unicode(v.s))
    ensures v.Bool? ==> Written(BuildRow(name, v)) == Some(v)
    ensures v.Int? ==> Written(BuildRow(name, v)) == Some(Float(SpinValue(v.i as real)))
    ensures v.Float? ==> Written(BuildRow(name, v)) == Some(Float(SpinValue(v.x)))
    ensures (v.ListV? || v.TupleV?) && AllText(v.items) && v.items != [] && CommaFree(v.items) ==>
      Written(BuildRow(name, v)) == Some(ListV(Unicodes(Texts(v.items))))
    ensures (v == ListV([]) || v == TupleV([])) ==> Written(BuildRow(name, v)) == Some(ListV([Unicode("")]))
  {
    if (v.ListV? || v.TupleV?) && AllText(v.items) && CommaFree(v.items) {
      JoinSplit(Texts(v.items));
      if v.items == [] {
        assert Texts(v.items) == [];
        assert Unicodes([""]) == [Unicode("")];
      }
    }
  }

  /**
   * As written, only unicode strings, booleans, ints and lists are written
   * back: a byte string, a float or a tuple is shown enabled and editable
   * but never saved.
   */
  lemma AsWrittenSaves(name: string, v: ConfigValue)
    ensures Written(BuildRowAsWritten(name, v)).Some? <==>
      v.Unicode? || v.Bool? || v.Int? || (v.ListV? && AllText(v.items))
  {
  }

  /** An edited float option: lost as written, saved with the computed tag. */
  lemma FloatEditLostAsWritten()
    ensures var section := map["rate" := Float(0.5)];
      var asWritten := BuildRowAsWritten("rate", Float(0.5)).(editor := SpinBox(2.0));
      var corrected := BuildRow("rate", Float(0.5)).(editor := SpinBox(2.0));
      && asWritten.enabled
      && "rate" in SaveRows(section, [asWritten]) && SaveRows(section, [asWritten])["rate"] == Float(0.5)
      && "rate" in SaveRows(section, [corrected]) && SaveRows(section, [corrected])["rate"] == Float(2.0)
  {
    var section := map["rate" := Float(0.5)];
    var asWritten := BuildRowAsWritten("rate", Float(0.5)).(editor := SpinBox(2.0));
    var corrected := BuildRow("rate", Float(0.5)).(editor := SpinBox(2.0));
    assert Written(asWritten).None?;
    assert Written(corrected) == Some(Float(2.0));
    assert [asWritten][..0] == [] && [corrected][..0] == [];
  }

  // ----- The tab -----

  /** The order `iteritems` visits a section in: every key once. */
  predicate Enumerates(order: seq<string>, section: map<string, ConfigValue>) {
    && (forall i, j :: 0 <= i < j < |order| ==> order[i] != order[j])
    && (forall i :: 0 <= i < |order| ==> order[i] in section)
    && (forall k :: k in section ==> k in order)
  }

  /** One section's tab (`SectionTab`). */
  class SectionTab {
    var section: map<string, ConfigValue>
    var rows: seq<Row>

    ghost predicate Valid()
      reads this
    {
      && AllFit(rows)
      && UniqueNames(rows)
      && forall i :: 0 <= i < |rows| ==> rows[i].name in section
    }

    /** Shows `section`, whose items are visited in `order`. */
    constructor (section: map<string, ConfigValue>, order: seq<string>)
      requires Enumerates(order, section)
      ensures Valid() && this.section == section
      ensures |rows| == |order|
      ensures forall i :: 0 <= i < |order| ==> rows[i] == BuildRow(order[i], section[order[i]])
    {
      this.section := section;
      rows := [];
      new;
      InitUI(order);
    }

    /** `initUI`: one row per option, in iteration order. */
    method InitUI(order: seq<string>)
      requires Enumerates(order, section)
      modifies this
      ensures Valid() && section == old(section)
      ensures |rows| == |order|
      ensures forall i :: 0 <= i < |order| ==> rows[i] == BuildRow(order[i], section[order[i]])
    {
      rows := [];
      var i := 0;
      while i < |order|
        invariant 0 <= i <= |order| && |rows| == i && section == old(section)
        invariant forall j :: 0 <= j < i ==> rows[j] == BuildRow(order[j], section[order[j]])
      {
        rows := rows + [BuildRow(order[i], section[order[i]])];
        i := i + 1;
      }
    }

    /** `save`: writes every enabled, tagged row into the section. */
    method Save()
      requires Valid()
      modifies this
      ensures Valid() && rows == old(rows)
      ensures section == SaveRows(old(section), rows)
    {
      var i := 0;
      while i < |rows|
        invariant 0 <= i <= |rows| && rows == old(rows)
        invariant section == SaveRows(old(section), rows[..i])
      {
        assert rows[..i + 1][..i] == rows[..i];
        var w := Written(rows[i]);
        if w.Some? {
          section := section[rows[i].name := w.value];
        }
        i := i + 1;
      }
      assert rows[..|rows|] == rows;
      SaveKeepsKeys(old(section), rows);
    }

    /** `onRemoveButton`: sets the option to None and disables its row. */
    method OnRemoveButton(i: nat)
      requires Valid() && i < |rows|
      modifies this
      ensures Valid()
      ensures section == old(section)[old(rows)[i].name := NoneV]
      ensures rows == old(rows)[i := old(rows)[i].(enabled := false, buttonEnabled := false)]
    {
      section := section[rows[i].name := NoneV];
      rows := rows[i := rows[i].(enabled := false, buttonEnabled := false)];
    }
  }
}
