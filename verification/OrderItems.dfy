/** Saving an order's dynamic item values from a submitted form
    (apps/orders/item_services.py). */
module OrderItems {
  import opened Options
  import opened Texts
  import opened OrderEngine

  datatype Kind = NumberKind | MoneyKind | TextKind | BoolKind

  datatype Definition = Definition(id: nat, company: nat, category: nat, kind: Kind, active: bool)

  /** What text is to the decimal parser: no decimal, one the column holds, in hundredths,
      or one it refuses, as it does "NaN", "Infinity" and numbers too long for it. */
  datatype Literal = NoDecimal | Storable(hundredths: int) | Unstorable

  type DecimalParser = string -> Literal

  /** A typed value. Saving a refused one raises. */
  datatype Parsed = Number(number: int) | Text(text: string) | Flag(flag: bool) | RefusedNumber

  const TRUE_TEXTS := {"on", "1", "true", "yes"}

  function Numeric(literal: Literal): Option<Parsed> {
    match literal
    case NoDecimal => None
    case Storable(n) => Some(Number(n))
    case Unstorable => Some(RefusedNumber)
  }

  function ParseValue(kind: Kind, raw: string, parse: DecimalParser): Option<Parsed> {
    match kind
    case NumberKind | MoneyKind =>
      if Strip(raw) == "" then None else Numeric(parse(Strip(raw)))
    case TextKind => if Strip(raw) == "" then None else Some(Text(Strip(raw)))
    case BoolKind => Some(Flag(Lower(raw) in TRUE_TEXTS))
  }

  /** A row with its other typed fields cleared. */
  function Only(p: Parsed): Value
    requires p != RefusedNumber
  {
    match p
    case Number(n) => Value(Some(n), None, None)
    case Text(t) => Value(None, Some(t), None)
    case Flag(b) => Value(None, None, Some(b))
  }

  type Form = map<nat, string>

  function Raw(form: Form, definition: nat): string {
    if definition in form then form[definition] else ""
  }

  /** What the form says about a definition. */
  function Submitted(d: Definition, form: Form, parse: DecimalParser): Option<Parsed> {
    ParseValue(d.kind, Raw(form, d.id), parse)
  }

  predicate Applies(d: Definition, company: nat, category: nat) {
    d.company == company && d.category == category && d.active
  }

  /** Definitions are identified by their primary key. */
  predicate KeysAreIds(definitions: seq<Definition>) {
    forall i, j :: 0 <= i < j < |definitions| ==> definitions[i].id != definitions[j].id
  }

  type Values = map<(nat, nat), Value>

  /** What a save should leave for one definition: the row the form asks for, if any. */
  ghost predicate RowIsSaved(after: Values, order: nat, d: Definition, form: Form, parse: DecimalParser) {
    var p := Submitted(d, form, parse);
    if p.None? then (order, d.id) !in after
    else p.value != RefusedNumber && (order, d.id) in after && after[(order, d.id)] == Only(p.value)
  }

  /** The form has a number the column refuses. */
  ghost predicate Refused(company: nat, category: Option<nat>, definitions: seq<Definition>, form: Form,
                          parse: DecimalParser)
  {
    category.Some?
    && exists k :: 0 <= k < |definitions| && Applies(definitions[k], company, category.value)
                   && Submitted(definitions[k], form, parse) == Some(RefusedNumber)
  }

  /** The post-state of a save, whatever rows there were before. */
  ghost predicate Saved(before: Values, after: Values, order: nat, company: nat, category: Option<nat>,
                        definitions: seq<Definition>, form: Form, parse: DecimalParser)
  {
    && (forall key :: key in after && key.0 != order ==> key in before && after[key] == before[key])
    && (forall key :: key in before && key.0 != order ==> key in after)
    && (forall key :: key in after && key.0 == order ==>
          category.Some? && exists d :: d in definitions && Applies(d, company, category.value) && d.id == key.1)
    && (forall d :: d in definitions && category.Some? && Applies(d, company, category.value) ==>
          RowIsSaved(after, order, d, form, parse))
  }

  /** Two saves of one form end in the same rows, whatever the rows were before: the
      post-state is determined by the form and the other orders' rows. */
  lemma SavedIsDetermined(before1: Values, before2: Values, after1: Values, after2: Values, order: nat, company: nat,
                          category: Option<nat>, definitions: seq<Definition>, form: Form, parse: DecimalParser)
    requires Saved(before1, after1, order, company, category, definitions, form, parse)
    requires Saved(before2, after2, order, company, category, definitions, form, parse)
    requires forall key: (nat, nat) :: key.0 != order ==>
               (key in before1 <==> key in before2) && (key in before1 ==> before1[key] == before2[key])
    ensures after1 == after2
  {
    forall key: (nat, nat)
      ensures key in after1 <==> key in after2
      ensures key in after1 ==> after1[key] == after2[key]
    {
      if key.0 == order && (key in after1 || key in after2) {
        var d :| d in definitions && Applies(d, company, category.value) && d.id == key.1;
        assert RowIsSaved(after1, order, d, form, parse) && RowIsSaved(after2, order, d, form, parse);
        assert key == (order, d.id);
      }
    }
  }

  /** Saving the same form again changes nothing. */
  lemma SavingTwiceIsSavingOnce(before: Values, once: Values, twice: Values, order: nat, company: nat,
                                category: Option<nat>, definitions: seq<Definition>, form: Form, parse: DecimalParser)
    requires Saved(before, once, order, company, category, definitions, form, parse)
    requires Saved(once, twice, order, company, category, definitions, form, parse)
    ensures twice == once
  {
    SavedIsDetermined(once, before, twice, once, order, company, category, definitions, form, parse);
  }

  predicate OneFieldSet(v: Value) {
    (if v.number.Some? then 1 else 0) + (if v.text.Some? then 1 else 0) + (if v.flag.Some? then 1 else 0) == 1
  }

  /** An active definition of the order's own company and category. */
  predicate Mine(d: Definition, company: nat, category: nat) {
    d.active && d.company == company && d.category == category
  }

  /** Every saved row is of an active definition of the order's category, has exactly one typed
      field, and it is what was typed: a checkbox always
      has its row, a number is the one parsed, text is the trimmed text; and text that is no
      number, or blank, removes the row there was. */
  lemma SavedRows(before: Values, after: Values, order: nat, company: nat, category: nat,
                  definitions: seq<Definition>, form: Form, parse: DecimalParser)
    requires Saved(before, after, order, company, Some(category), definitions, form, parse)
    ensures forall key :: key in after && key.0 == order ==>
              OneFieldSet(after[key]) && exists d :: d in definitions && Mine(d, company, category) && d.id == key.1
    ensures forall d :: d in definitions && Mine(d, company, category) && d.kind == BoolKind ==>
              (order, d.id) in after
              && after[(order, d.id)].flag == Some(Lower(Raw(form, d.id)) in {"on", "1", "true", "yes"})
    ensures forall d :: d in definitions && Mine(d, company, category) && d.kind in {NumberKind, MoneyKind} ==>
              ((order, d.id) in after <==> Strip(Raw(form, d.id)) != "" && parse(Strip(Raw(form, d.id))).Storable?)
              && ((order, d.id) in after ==>
                   after[(order, d.id)].number == Some(parse(Strip(Raw(form, d.id))).hundredths))
    ensures forall d :: d in definitions && Mine(d, company, category) && d.kind == TextKind ==>
              ((order, d.id) in after <==> Strip(Raw(form, d.id)) != "")
              && ((order, d.id) in after ==> after[(order, d.id)].text == Some(Strip(Raw(form, d.id))))
  {
    hide Strip, Lower;
    forall key | key in after && key.0 == order
      ensures OneFieldSet(after[key]) && exists d :: d in definitions && Mine(d, company, category) && d.id == key.1
    {
      var d :| d in definitions && Applies(d, company, category) && d.id == key.1;
      assert key == (order, d.id) && RowIsSaved(after, order, d, form, parse);
      assert Mine(d, company, category);
    }
    forall d | d in definitions && Mine(d, company, category)
      ensures RowIsSaved(after, order, d, form, parse)
    {
    }
    hide Saved;
  }

  /** A save raises exactly over a number of an active definition of the category that the
      column refuses. */
  lemma RefusedIff(company: nat, category: nat, definitions: seq<Definition>, form: Form, parse: DecimalParser)
    ensures Refused(company, Some(category), definitions, form, parse)
            <==> exists d :: d in definitions && Mine(d, company, category) && d.kind in {NumberKind, MoneyKind}
                             && Strip(Raw(form, d.id)) != "" && parse(Strip(Raw(form, d.id))).Unstorable?
    ensures !Refused(company, None, definitions, form, parse)
  {
    hide Strip, Lower;
    forall d
      ensures Submitted(d, form, parse) == Some(RefusedNumber)
              <==> d.kind in {NumberKind, MoneyKind} && Strip(Raw(form, d.id)) != ""
                   && parse(Strip(Raw(form, d.id))).Unstorable?
    {
    }
    if Refused(company, Some(category), definitions, form, parse) {
      var k :| 0 <= k < |definitions| && Applies(definitions[k], company, category)
               && Submitted(definitions[k], form, parse) == Some(RefusedNumber);
      assert Mine(definitions[k], company, category);
    }
    hide ParseValue;
  }

  lemma RowKept(before: Values, after: Values, order: nat, d: Definition, form: Form, parse: DecimalParser)
    requires RowIsSaved(before, order, d, form, parse)
    requires (order, d.id) in after <==> (order, d.id) in before
    requires (order, d.id) in after ==> after[(order, d.id)] == before[(order, d.id)]
    ensures RowIsSaved(after, order, d, form, parse)
  {
  }

  lemma SavedIsNotRefused(after: Values, order: nat, company: nat, category: Option<nat>, definitions: seq<Definition>,
                          form: Form, parse: DecimalParser)
    requires category.Some? ==>
               forall i :: 0 <= i < |definitions| && Applies(definitions[i], company, category.value) ==>
                 RowIsSaved(after, order, definitions[i], form, parse)
    ensures !Refused(company, category, definitions, form, parse)
  {
  }

  class ItemTable {
    var values: Values

    constructor ()
      ensures values == map[]
    {
      values := map[];
    }

    /** `save_items_from_post`: drop the rows of other categories, then update, create or
        delete one row per definition. */
    method SaveItemsFromPost(order: nat, company: nat, category: Option<nat>, definitions: seq<Definition>,
                             form: Form, parse: DecimalParser)
      returns (raised: bool)
      requires KeysAreIds(definitions)
      modifies this
      ensures raised <==> Refused(company, category, definitions, form, parse)
      ensures raised ==> values == old(values)
      ensures !raised ==> Saved(old(values), values, order, company, category, definitions, form, parse)
    {
      hide ParseValue, Submitted, RowIsSaved;
      if category.None? {
        values := map key | key in values && key.0 != order :: values[key];
        return false;
      }
      var before := values;
      var valid := set d | d in definitions && Applies(d, company, category.value) :: d.id;
      values := map key | key in values && (key.0 != order || key.1 in valid) :: values[key];
      for k := 0 to |definitions|
        invariant forall key :: key in values && key.0 != order ==>
            key in old(values) && values[key] == old(values)[key]
        invariant forall key :: key in old(values) && key.0 != order ==> key in values
        invariant forall key :: key in values && key.0 == order ==> key.1 in valid
        invariant forall i :: 0 <= i < k && Applies(definitions[i], company, category.value) ==>
                    RowIsSaved(values, order, definitions[i], form, parse)
      {
        var d := definitions[k];
        if Applies(d, company, category.value) {
          ghost var earlier := values;
          raised := SaveItem(order, d, form, parse);
          if raised {
            values := before;
            return;
          }
          forall i | 0 <= i < k && Applies(definitions[i], company, category.value)
            ensures RowIsSaved(values, order, definitions[i], form, parse)
          {
            assert (order, definitions[i].id) != (order, d.id);
            RowKept(earlier, values, order, definitions[i], form, parse);
          }
        }
      }
      SavedIsNotRefused(values, order, company, category, definitions, form, parse);
      raised := false;
    }

    /** One turn of the loop. */
    method SaveItem(order: nat, d: Definition, form: Form, parse: DecimalParser) returns (raised: bool)
      modifies this
      ensures raised <==> Submitted(d, form, parse) == Some(RefusedNumber)
      ensures raised ==> values == old(values)
      ensures !raised ==> RowIsSaved(values, order, d, form, parse)
      ensures forall key :: key != (order, d.id) ==>
                (key in values <==> key in old(values)) && (key in values ==> values[key] == old(values)[key])
    {
      var key := (order, d.id);
      var parsed := Submitted(d, form, parse);
      raised := parsed == Some(RefusedNumber);
      if raised {
        return;
      }
      if parsed.None? {
        if d.kind != BoolKind && key in values {
          values := values - {key};
        }
      } else if key in values {
        var cleared := values[key].(number := None, text := None, flag := None);
        values := values[key := match parsed.value
                                case Number(n) => cleared.(number := Some(n))
                                case Text(t) => cleared.(text := Some(t))
                                case Flag(b) => cleared.(flag := Some(b))
                                case RefusedNumber => cleared];
      } else {
        values := values[key := Only(parsed.value)];
      }
    }
  }
}
