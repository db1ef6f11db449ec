/**
 * The connection form of one database driver: one row per field the driver
 * asks for, each a checkbox (is the field given?) and an editor (a line
 * edit, or a spin box from 0 to 65535 for the port), with the driver's
 * required flag and default value.
 */
module DriverForms {
  import opened Options
  import opened Profiles

  /** The largest port the spin box accepts. */
  const MAX_PORT: int := 65535

  /** A field's editor and what it shows. */
  datatype Widget = TextBox(text: string) | SpinBox(value: int)

  /** What the driver declares about one field. */
  datatype FieldSpec = FieldSpec(caption: string, required: bool, default: Option<Value>)

  /** One row of the form: the driver's declaration, the checkbox and the editor. */
  datatype Row = Row(spec: FieldSpec, checked: bool, widget: Widget)

  /** The values the form holds, keyed as the source's `values()` dictionary. */
  datatype FormValues = FormValues(driver: string, fields: map<Field, Option<string>>)

  // ----- Decimal text of a port -----

  predicate IsDigit(c: char) {
    '0' <= c <= '9'
  }

  /** A non-empty string of decimal digits. */
  predicate IsDecimal(s: string) {
    |s| > 0 && forall i :: 0 <= i < |s| ==> IsDigit(s[i])
  }

  /** The decimal text of `n`, as `unicode(n)` writes it. */
  function Decimal(n: nat): (s: string)
    ensures IsDecimal(s)
  {
    if n < 10 then [(n + '0' as int) as char]
    else Decimal(n / 10) + [((n % 10) + '0' as int) as char]
  }

  /** The number a string of decimal digits denotes, as `int(s)` reads it. */
  function DecimalValue(s: string): nat
    requires IsDecimal(s)
  {
    var d := (s[|s| - 1] as int) - ('0' as int);
    if |s| == 1 then d else 10 * DecimalValue(s[..|s| - 1]) + d
  }

  /** Reading back the decimal text of a number gives that number. */
  lemma {:induction false} DecimalRoundTrip(n: nat)
    ensures DecimalValue(Decimal(n)) == n
  {
    if n >= 10 {
      DecimalRoundTrip(n / 10);
      var s := Decimal(n);
      assert s[..|s| - 1] == Decimal(n / 10);
    }
  }

  // ----- One row -----

  /** Python truth of a value handed to `setField`. */
  predicate Truthy(v: Option<Value>) {
    match v
    case None => false
    case Some(Text(s)) => s != ""
    case Some(Num(n)) => n != 0
  }

  /**
   * The values `setField(f, v)` can take without raising: text for a text
   * field; a number or decimal text for the port.
   */
  predicate Accepts(f: Field, v: Option<Value>) {
    match v
    case None => true
    case Some(Text(s)) => IsTextField(f) || IsDecimal(s)
    case Some(Num(_)) => !IsTextField(f)
  }

  /** The port number a value accepted for the port denotes. */
  function PortNumber(v: Value): int
    requires Accepts(Port, Some(v))
  {
    match v
    case Text(s) => DecimalValue(s)
    case Num(n) => n
  }

  /** The spin box keeps its value within its range. */
  function ClampPort(n: int): (r: int)
    ensures 0 <= r <= MAX_PORT
    ensures 0 <= n <= MAX_PORT ==> r == n
  {
    if n < 0 then 0 else if n > MAX_PORT then MAX_PORT else n
  }

  /** A well-formed row of field `f`. */
  predicate RowFits(f: Field, row: Row) {
    && (IsTextField(f) <==> row.widget.TextBox?)
    && (row.widget.SpinBox? ==> 0 <= row.widget.value <= MAX_PORT)
    && Accepts(f, row.spec.default)
    && (row.spec.required ==> row.checked)
  }

  /**
   * The row after `setField(f, v)`: the box is checked when the field is
   * required or `v` is truthy, and the editor shows `v`, or the default when
   * `v` is None.
   */
  function Assigned(row: Row, f: Field, v: Option<Value>): (r: Row)
    requires RowFits(f, row) && Accepts(f, v)
    ensures RowFits(f, r) && r.spec == row.spec
  {
    var shown := if v.Some? then v else row.spec.default;
    var widget :=
      if IsTextField(f) then TextBox(match shown case Some(Text(s)) => s case _ => "")
      else SpinBox(if shown.Some? then ClampPort(PortNumber(shown.value)) else 0);
    Row(row.spec, row.spec.required || Truthy(v), widget)
  }

  /** What `getField` reads from a row: nothing when unchecked, else the editor's text. */
  function Read(row: Row): (r: Option<string>)
    ensures r.Some? <==> row.checked
  {
    if !row.checked then None
    else match row.widget
      case TextBox(t) => Some(t)
      case SpinBox(n) => Some(Decimal(if n < 0 then 0 else n))
  }

  /** A read value as `setattr` stores it on a profile. */
  function AsValue(r: Option<string>): Option<Value> {
    match r
    case None => None
    case Some(s) => Some(Text(s))
  }

  /** The row a field starts from, before `initUI` sets it to None. */
  function Blank(f: Field, spec: FieldSpec): Row {
    Row(spec, spec.required, if IsTextField(f) then TextBox("") else SpinBox(0))
  }

  /** Setting a text field to non-empty text checks its box and reads that text back. */
  lemma SetThenGetText(row: Row, f: Field, s: string)
    requires RowFits(f, row) && IsTextField(f) && s != ""
    ensures Read(Assigned(row, f, Some(Text(s)))) == Some(s)
  {
  }

  /** Setting the port to a number in range reads back its decimal text. */
  lemma SetThenGetPort(row: Row, n: int)
    requires RowFits(Port, row) && 0 < n <= MAX_PORT
    ensures Read(Assigned(row, Port, Some(Num(n)))) == Some(Decimal(n))
  {
  }

  /**
   * After clearing, an optional field reads None and a required one reads
   * its default.
   */
  lemma ClearedRead(row: Row, f: Field)
    requires RowFits(f, row)
    ensures !row.spec.required ==> Read(Assigned(row, f, None)) == None
    ensures row.spec.required && IsTextField(f) ==>
      Read(Assigned(row, f, None)) == Some(match row.spec.default case Some(Text(d)) => d case _ => "")
    ensures row.spec.required && f == Port && row.spec.default == None ==>
      Read(Assigned(row, f, None)) == Some("0")
    ensures row.spec.required && f == Port && row.spec.default.Some? ==>
      Read(Assigned(row, f, None)) == Some(Decimal(ClampPort(PortNumber(row.spec.default.value))))
  {
  }

  /**
   * Saving a row into a profile and loading that profile back reproduces
   * what the row reads, unless an optional field was checked but left empty
   * (it then reads None).
   */
  lemma SaveThenLoad(row: Row, f: Field)
    requires RowFits(f, row)
    requires Read(row) == Some("") ==> row.spec.required
    ensures Accepts(f, AsValue(Read(row)))
    ensures Read(Assigned(row, f, AsValue(Read(row)))) == Read(row)
  {
    if row.checked && row.widget.SpinBox? {
      DecimalRoundTrip(row.widget.value);
    }
  }

  // ----- The form -----

  /** A driver's connection form (`DriverForm`). */
  class DriverForm {
    const driver: string
    var rows: map<Field, Row>

    ghost predicate Valid()
      reads this
    {
      forall f :: f in rows ==> RowFits(f, rows[f])
    }

    /** Builds the form of `driver` from its declared fields and sets each to None. */
    constructor (driver: string, form: map<Field, FieldSpec>)
      requires forall f :: f in form ==> Accepts(f, form[f].default)
      ensures Valid() && this.driver == driver
      ensures rows.Keys == form.Keys
      ensures forall f :: f in rows ==> rows[f] == Assigned(Blank(f, form[f]), f, None)
    {
      this.driver := driver;
      rows := map f | f in form :: Blank(f, form[f]);
      new;
      Clear();
    }

    /** `setField`: sets one field; fields the driver does not ask for are ignored. */
    method SetField(f: Field, v: Option<Value>)
      requires Valid() && (f in rows ==> Accepts(f, v))
      modifies this
      ensures Valid()
      ensures rows == if f in old(rows) then old(rows)[f := Assigned(old(rows)[f], f, v)] else old(rows)
    {
      if f !in rows {
        return;
      }
      rows := rows[f := Assigned(rows[f], f, v)];
    }

    /** `getField`: None for a field not in the form or whose box is unchecked. */
    function GetField(f: Field): (r: Option<string>)
      reads this
      ensures r.Some? <==> f in rows && rows[f].checked
    {
      if f !in rows then None else Read(rows[f])
    }

    /**
     * `setProfile`: loads every field from `p`, unless `p` belongs to another
     * driver, in which case nothing changes.
     */
    method SetProfile(p: Profile)
      requires Valid()
      requires p.driver == driver ==> forall f :: f in rows ==> Accepts(f, Attr(p, f))
      modifies this
      ensures Valid()
      ensures p.driver != driver ==> rows == old(rows)
      ensures p.driver == driver ==>
        && rows.Keys == old(rows).Keys
        && forall f :: f in rows ==> rows[f] == Assigned(old(rows)[f], f, Attr(p, f))
    {
      if p.driver != driver {
        return;
      }
      var todo := rows.Keys;
      while todo != {}
        invariant Valid()
        invariant todo <= rows.Keys && rows.Keys == old(rows).Keys
        invariant forall f :: f in rows && f !in todo ==> rows[f] == Assigned(old(rows)[f], f, Attr(p, f))
        invariant forall f :: f in todo ==> rows[f] == old(rows)[f]
        decreases todo
      {
        var f :| f in todo;
        SetField(f, Attr(p, f));
        todo := todo - {f};
      }
    }

    /** `clear`: sets every field to None. */
    method Clear()
      requires Valid()
      modifies this
      ensures Valid()
      ensures rows.Keys == old(rows).Keys
      ensures forall f :: f in rows ==> rows[f] == Assigned(old(rows)[f], f, None)
    {
      var todo := rows.Keys;
      while todo != {}
        invariant Valid()
        invariant todo <= rows.Keys && rows.Keys == old(rows).Keys
        invariant forall f :: f in rows && f !in todo ==> rows[f] == Assigned(old(rows)[f], f, None)
        invariant forall f :: f in todo ==> rows[f] == old(rows)[f]
        decreases todo
      {
        var f :| f in todo;
        SetField(f, None);
        todo := todo - {f};
      }
    }

    /**
     * `values`: the driver and one entry per field the driver asks for,
     * holding a value exactly when that field's box is checked.
     */
    function Values(): (r: FormValues)
      reads this
      ensures r.driver == driver && r.fields.Keys == rows.Keys
      ensures forall f :: f in rows ==> (r.fields[f].Some? <==> rows[f].checked)
    {
      FormValues(driver, map f | f in rows :: GetField(f))
    }

    /**
     * `p` as `save` leaves it: this form's driver, and the form's reading of
     * each of its fields; name, editability and other attributes are kept.
     */
    function Filled(p: Profile): (q: Profile)
      reads this
      ensures q.name == p.name && q.editable == p.editable && q.driver == driver
      ensures forall f :: f in rows ==> Attr(q, f) == AsValue(GetField(f))
      ensures forall f :: f !in rows ==> Attr(q, f) == Attr(p, f)
    {
      p.(driver := driver, attrs := p.attrs + map f | f in rows :: AsValue(GetField(f)))
    }

    /**
     * Saving the form into a profile and loading that profile back leaves
     * every value of the form as it was: each saved attribute is one the
     * field accepts, and `setField` of it reads back the same value. The
     * exception is an optional field checked but left empty, which reads
     * None once reloaded.
     */
    lemma SavedProfileReloads(p: Profile)
      requires Valid()
      requires forall f :: f in rows && Read(rows[f]) == Some("") ==> rows[f].spec.required
      ensures forall f :: f in rows ==> Accepts(f, Attr(Filled(p), f))
      ensures forall f :: f in rows ==>
        Read(Assigned(rows[f], f, Attr(Filled(p), f))) == Values().fields[f]
    {
      forall f | f in rows
        ensures Accepts(f, Attr(Filled(p), f))
        ensures Read(Assigned(rows[f], f, Attr(Filled(p), f))) == Values().fields[f]
      {
        SaveThenLoad(rows[f], f);
      }
    }

    /** `save`: fills `p` from the form, persists it and reports success. */
    method Save(p: Profile, store: ProfileStore) returns (ok: bool)
      modifies store
      ensures ok
      ensures store.profiles == old(store.profiles)[p.name := Filled(p)]
      ensures store.inUse == old(store.inUse)
    {
      var q := p.(driver := driver);
      var todo := rows.Keys;
      while todo != {}
        invariant todo <= rows.Keys
        invariant q == p.(driver := driver, attrs := p.attrs + map f | f in rows && f !in todo :: AsValue(GetField(f)))
        decreases todo
      {
        var f :| f in todo;
        q := q.(attrs := q.attrs[f := AsValue(GetField(f))]);
        todo := todo - {f};
      }
      assert (map f | f in rows && f !in todo :: AsValue(GetField(f))) == map f | f in rows :: AsValue(GetField(f));
      store.Save(q);
      ok := true;
    }
  }
}
