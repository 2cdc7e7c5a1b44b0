/** The `categories` record as the source builds it: a plain object literal
    `{}` (FinancialChatbot.tsx:105-110). Such an object inherits the members
    of `Object.prototype`, so reading a category named after one of them
    yields a function (or, for `__proto__`, the prototype object), which
    `|| 0` keeps and `+` turns into a string; assigning to `__proto__` a
    string is ignored. The rest of the model uses an own-property map
    (`Aggregation.Categories`); this module shows where the two part. */
module JsRecord {
  import opened Types
  import opened Aggregation

  /** The values a property read can produce here: nothing, a number, or
      something that is not a number (an inherited member, or a string after `+`). */
  datatype JsValue = Undefined | Num(n: int) | NonNumeric

  const PrototypeMembers: set<string> := {
    "constructor", "hasOwnProperty", "isPrototypeOf", "propertyIsEnumerable",
    "toLocaleString", "toString", "valueOf", "__proto__",
    "__defineGetter__", "__defineSetter__", "__lookupGetter__", "__lookupSetter__"}

  /** `obj[k]` on an object whose prototype is `Object.prototype`. */
  function Read(obj: map<string, JsValue>, k: string): (v: JsValue)
    ensures k in obj ==> v == obj[k]
    ensures k !in obj ==> (v == NonNumeric <==> k in PrototypeMembers)
    ensures k !in obj && k !in PrototypeMembers ==> v == Undefined
  {
    if k in obj then obj[k] else if k in PrototypeMembers then NonNumeric else Undefined
  }

  /** `(v || 0) + a` for a non-negative number `a`. */
  function PlusOrZero(v: JsValue, a: nat): (r: JsValue)
    ensures r.Num? <==> !v.NonNumeric?
    ensures v.Undefined? ==> r == Num(a)
    ensures v.Num? ==> r == Num(v.n + a)
  {
    match v
    case Undefined => Num(a)
    case Num(n) => Num(n + a)
    case NonNumeric => NonNumeric
  }

  /** `obj[k] = v`; the `__proto__` setter ignores a value that is not an object. */
  function Write(obj: map<string, JsValue>, k: string, v: JsValue): (r: map<string, JsValue>)
    ensures k == "__proto__" ==> r == obj
    ensures k != "__proto__" ==> k in r && r[k] == v && r.Keys == obj.Keys + {k}
    ensures forall j :: j in obj && j != k ==> j in r && r[j] == obj[j]
  {
    if k == "__proto__" then obj else obj[k := v]
  }

  /** The `forEach` of lines 106-110 as written, over the already filtered debits. */
  function GroupAsWritten(ds: seq<Transaction>): (r: map<string, JsValue>)
    ensures "__proto__" !in r
  {
    if ds == [] then map[]
    else
      var obj := GroupAsWritten(ds[..|ds| - 1]);
      var t := ds[|ds| - 1];
      Write(obj, t.category, PlusOrZero(Read(obj, t.category), Abs(t.amount)))
  }

  /** The own-property map, with its values seen as JavaScript numbers. */
  function AsNumbers(m: map<string, int>): map<string, JsValue>
  {
    map k | k in m :: Num(m[k])
  }

  lemma AsNumbersUpdate(m: map<string, int>, k: string, x: int)
    ensures AsNumbers(m[k := x]) == AsNumbers(m)[k := Num(x)]
  {
  }

  /** When no category is named after an `Object.prototype` member, the record
      as written holds exactly the own-property map of the model. */
  lemma {:induction false} AsWrittenAgreesOffPrototype(ds: seq<Transaction>)
    requires forall i :: 0 <= i < |ds| ==> ds[i].category !in PrototypeMembers
    ensures GroupAsWritten(ds) == AsNumbers(Group(ds))
  {
    if ds != [] {
      var init, t := ds[..|ds| - 1], ds[|ds| - 1];
      assert forall i :: 0 <= i < |init| ==> init[i].category !in PrototypeMembers by {
        assert forall i :: 0 <= i < |init| ==> init[i] == ds[i];
      }
      AsWrittenAgreesOffPrototype(init);
      var obj, m, c := GroupAsWritten(init), Group(init), t.category;
      var x := (if c in m then m[c] else 0) + Abs(t.amount);
      assert GroupAsWritten(ds) == Write(obj, c, PlusOrZero(Read(obj, c), Abs(t.amount)));
      assert Group(ds) == m[c := x];
      assert c != "__proto__";
      assert Read(obj, c) == if c in m then Num(m[c]) else Undefined;
      assert PlusOrZero(Read(obj, c), Abs(t.amount)) == Num(x);
      AsNumbersUpdate(m, c, x);
    }
  }

  /** A single expense filed under "constructor": the model records 500, the
      record as written holds a string, so its values no longer add up to
      totalExpenses. */
  lemma PrototypeCategoryCounterexample()
    ensures var ts := [Transaction("2024-01-03", "Rent", -500, "constructor")];
            && Expenses(ts) == 500
            && Categories(ts) == map["constructor" := 500]
            && GroupAsWritten(Debits(ts)) == map["constructor" := NonNumeric]
  {
    var ts := [Transaction("2024-01-03", "Rent", -500, "constructor")];
    assert Debits(ts) == ts;
    assert Group(ts) == AddExpense(Group([]), ts[0]);
  }
}
