/**
 * The student "Category Budget" form: one text field per category,
 * remembered per user, whose finite positive readings add up to the
 * budget the form saves.
 */
module CategoryBudgetPanel {
  import opened Wrappers
  import opened JsValues
  import opened JsObjects
  import opened Categorizer

  /** `DEFAULT_CATEGORIES.reduce((acc, cat) => { acc[cat] = ""; return acc; }, {})`. */
  function Defaults(cats: seq<Category>): (values: Entries<TextInput>)
    ensures DistinctKeys(values)
  {
    if cats == [] then [] else Set(Defaults(cats[..|cats| - 1]), Name(cats[|cats| - 1]), Blank)
  }

  /** The defaults hold an empty field for each category listed, and nothing else. */
  lemma DefaultFields(cats: seq<Category>)
    ensures forall c | c in cats :: Lookup(Defaults(cats), Name(c)) == Some(Blank)
    ensures forall k :: Lookup(Defaults(cats), k).Some? ==> k in Names(cats)
  {
    DefaultFieldsPresent(cats);
    DefaultFieldsOnly(cats);
  }

  lemma {:induction false} DefaultFieldsPresent(cats: seq<Category>)
    ensures forall c | c in cats :: Lookup(Defaults(cats), Name(c)) == Some(Blank)
  {
    if cats != [] {
      var prefix, last := cats[..|cats| - 1], cats[|cats| - 1];
      DefaultFieldsPresent(prefix);
      assert cats == prefix + [last];
      forall c | c in cats ensures Lookup(Defaults(cats), Name(c)) == Some(Blank) {
        if c != last {
          NameInjective(c, last);
          assert c in prefix;
        }
      }
    }
  }

  /** The keys of the categories `cats`, in order. */
  function Names(cats: seq<Category>): (ns: seq<string>)
    ensures |ns| == |cats| && forall i | 0 <= i < |cats| :: ns[i] == Name(cats[i])
  {
    if cats == [] then [] else Names(cats[..|cats| - 1]) + [Name(cats[|cats| - 1])]
  }

  lemma {:induction false} DefaultFieldsOnly(cats: seq<Category>)
    ensures forall k :: Lookup(Defaults(cats), k).Some? ==> k in Names(cats)
  {
    if cats != [] {
      var prefix := cats[..|cats| - 1];
      DefaultFieldsOnly(prefix);
      assert Names(cats) == Names(prefix) + [Name(cats[|cats| - 1])];
    }
  }

  /** What `Number(v)` adds to the total: itself when finite and above 0, else nothing. */
  function Counted(v: TextInput): (r: real)
    ensures r >= 0.0
    ensures r > 0.0 <==> v.reading.Finite? && v.reading.value > 0.0
  {
    if IsFinite(v.reading) && v.reading.value > 0.0 then v.reading.value else 0.0
  }

  /** `Object.values(values).reduce(...)`: every value of the object, not only the category fields. */
  function TotalBudget(values: Entries<TextInput>): (total: real)
    ensures total >= 0.0
    ensures forall i | 0 <= i < |values| :: Counted(values[i].1) <= total
  {
    if values == [] then 0.0
    else
      var rest := TotalBudget(values[1..]);
      assert forall i | 1 <= i < |values| :: values[i] == values[1..][i - 1];
      Counted(values[0].1) + rest
  }

  /** A total above 0 has a field that reads as a finite number above 0, and the other way round. */
  lemma {:induction false} PositiveTotalHasPositiveField(values: Entries<TextInput>)
    ensures TotalBudget(values) > 0.0 <==> exists i | 0 <= i < |values| :: Counted(values[i].1) > 0.0
  {
    if values != [] {
      PositiveTotalHasPositiveField(values[1..]);
      if exists i | 0 <= i < |values[1..]| :: Counted(values[1..][i].1) > 0.0 {
        var i :| 0 <= i < |values[1..]| && Counted(values[1..][i].1) > 0.0;
        assert values[i + 1] == values[1..][i];
      }
      if exists i | 0 <= i < |values| :: Counted(values[i].1) > 0.0 {
        var i :| 0 <= i < |values| && Counted(values[i].1) > 0.0;
        if i > 0 {
          assert values[1..][i - 1] == values[i];
        }
      }
    }
  }

  /** The empty form's total is 0: saving it is refused. */
  lemma {:induction false} DefaultsTotalZero(cats: seq<Category>)
    ensures TotalBudget(Defaults(cats)) == 0.0
  {
    var values := Defaults(cats);
    DefaultFields(cats);
    forall i | 0 <= i < |values| ensures Counted(values[i].1) == 0.0 {
      DistinctKeysAt(values);
      LookupAt(values, i);
      assert Lookup(values, values[i].0).Some?;
      var j :| 0 <= j < |cats| && Names(cats)[j] == values[i].0;
      assert cats[j] in cats;
    }
    PositiveTotalHasPositiveField(values);
  }

  /** Every category has a field. */
  predicate HasAllCategories(values: Entries<TextInput>) {
    forall c :: Lookup(values, Name(c)).Some?
  }

  /** The initial form has a field for every category and a total of 0. */
  lemma DefaultsComplete()
    ensures HasAllCategories(Defaults(Categories)) && TotalBudget(Defaults(Categories)) == 0.0
  {
    DefaultFieldsPresent(Categories);
    forall c ensures Lookup(Defaults(Categories), Name(c)).Some? {
      EveryCategoryListed(c);
    }
    DefaultsTotalZero(Categories);
  }

  /** Writing `v` under key `k` replaces what that key counted by what `v` counts. */
  lemma {:induction false} TotalAfterSet(values: Entries<TextInput>, k: string, v: TextInput)
    requires DistinctKeys(values)
    ensures TotalBudget(Set(values, k, v))
         == TotalBudget(values) - (match Lookup(values, k) case Some(w) => Counted(w) case None => 0.0) + Counted(v)
  {
    if values != [] && values[0].0 != k {
      TotalAfterSet(values[1..], k, v);
    }
  }

  /**
   * What `localStorage.getItem("categoryBudget_<userId>")` yields once
   * read: nothing (no item or an empty one), text that is not JSON, or an
   * object whose values read as given.
   */
  datatype Stored = NoItem | BadJson | Parsed(obj: Entries<TextInput>)

  /** What the user may type into a category field. */
  predicate Acceptable(raw: TextInput) {
    raw.text == "" || (IsFinite(raw.reading) && raw.reading.value >= 0.0)
  }

  /** What the form's message line says. */
  datatype Message = NoMessage | NeedPositiveBudget | BudgetSaved(total: real) | SaveFailed

  /** The form's state: the field values, keyed by category name, and the message. */
  class CategoryBudgetForm {
    var values: Entries<TextInput>
    var message: Message

    /** Every category has exactly one field. */
    ghost predicate Valid()
      reads this
    {
      DistinctKeys(values) && HasAllCategories(values)
    }

    /** The form starts with every category empty; the message is empty. */
    constructor()
      ensures values == Defaults(Categories) && message == NoMessage
      ensures Valid() && TotalBudget(values) == 0.0
    {
      DefaultsComplete();
      values := Defaults(Categories);
      message := NoMessage;
    }

    /**
     * The effect on mount: a stored object is spread over the fields, so
     * its values win and every category keeps a field; anything else
     * changes nothing.
     */
    method LoadStored(stored: Stored)
      requires Valid()
      requires stored.Parsed? ==> DistinctKeys(stored.obj)
      modifies this
      ensures stored.Parsed? ==> values == Merge(old(values), stored.obj)
      ensures !stored.Parsed? ==> values == old(values)
      ensures message == old(message) && Valid()
      ensures forall k :: Lookup(values, k).Some? <==>
                            Lookup(old(values), k).Some? || (stored.Parsed? && Lookup(stored.obj, k).Some?)
    {
      if stored.Parsed? {
        values := Merge(values, stored.obj);
      }
    }

    /**
     * `handleChange`: an emptied field is cleared; a reading that is NaN,
     * infinite or negative is refused and nothing changes; any other input
     * is kept as typed.
     */
    method HandleChange(cat: Category, raw: TextInput)
      requires Valid()
      modifies this
      ensures raw.text == "" ==> values == Set(old(values), Name(cat), Blank)
      ensures !Acceptable(raw) ==> values == old(values)
      ensures raw.text != "" && Acceptable(raw) ==> values == Set(old(values), Name(cat), raw)
      ensures message == old(message) && Valid()
      ensures forall k | k != Name(cat) :: Lookup(values, k) == Lookup(old(values), k)
      ensures Acceptable(raw) ==> TotalBudget(values) == TotalBudget(old(values))
                                                  - Counted(Lookup(old(values), Name(cat)).GetOr(Blank))
                                                  + (if raw.text == "" then 0.0 else Counted(raw))
    {
      if raw.text == "" {
        TotalAfterSet(values, Name(cat), Blank);
        values := Set(values, Name(cat), Blank);
        return;
      }
      if !IsFinite(raw.reading) || raw.reading.value < 0.0 {
        return;
      }
      TotalAfterSet(values, Name(cat), raw);
      values := Set(values, Name(cat), raw);
    }

    /**
     * `handleSave`. Without a total above 0 it only asks for a positive
     * budget: nothing is stored or sent. Otherwise the fields are stored
     * first, then the total is sent (`saveSucceeds` is the outcome of the
     * request) and the message reports it. `notified` is whether
     * `onBudgetUpdated` was called.
     */
    method HandleSave(saveSucceeds: bool) returns (persisted: Option<Entries<TextInput>>, sent: Option<real>, notified: bool)
      requires Valid()
      modifies this
      ensures values == old(values) && Valid()
      ensures TotalBudget(values) <= 0.0 ==>
                persisted == None && sent == None && !notified && message == NeedPositiveBudget
      ensures TotalBudget(values) > 0.0 ==>
                && persisted == Some(values) && sent == Some(TotalBudget(values)) && notified == saveSucceeds
                && message == (if saveSucceeds then BudgetSaved(TotalBudget(values)) else SaveFailed)
    {
      var totalBudget := TotalBudget(values);
      if totalBudget <= 0.0 {
        message := NeedPositiveBudget;
        return None, None, false;
      }
      persisted := Some(values);
      sent := Some(totalBudget);
      if saveSucceeds {
        message := BudgetSaved(totalBudget);
        notified := true;
      } else {
        message := SaveFailed;
        notified := false;
      }
    }
  }
}
