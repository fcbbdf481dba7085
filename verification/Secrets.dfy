// The secrets store (src/lib/secrets.js) over its in-memory data: groups of fields, the one-way
// secret mark, and the list of values that log lines are redacted with.

module Secrets {
  import opened Text
  import Redaction

  const MIN_REDACT: nat := 6
  const MAX_VALUE: nat := 64 * 1024
  const MAX_NAME: nat := 64

  /** Entries written before kinds existed carry no flag. */
  datatype Field = Field(value: string, changed: int, secret: Option<bool>)

  type Group = map<string, Field>

  type Data = map<string, Group>

  datatype Status = Empty | Ready | Locked | Broken

  datatype Error = StoreLocked | InvalidName | InvalidValue

  datatype Result<+T> = Success(value: T) | Failure(error: Error)

  predicate IsSecret(f: Field) { f.secret != Some(false) }

  predicate NameChar(c: char) {
    'A' <= c <= 'Z' || 'a' <= c <= 'z' || IsDigit(c) || c == '_' || c == '.' || c == '-'
  }

  predicate ValidName(n: string) { 1 <= |n| <= MAX_NAME && forall i :: 0 <= i < |n| ==> NameChar(n[i]) }

  predicate InData(data: Data, group: string, field: string) { group in data && field in data[group] }

  predicate SecretIn(data: Data, group: string, field: string) {
    InData(data, group, field) && IsSecret(data[group][field])
  }

  // ---------------------------------------------------------------------------
  // The redaction list
  // ---------------------------------------------------------------------------

  /** The values to hide: those of secret fields with at least six characters. */
  ghost predicate Hidden(data: Data, value: string) {
    |value| >= MIN_REDACT && exists group, field :: SecretIn(data, group, field) && data[group][field].value == value
  }

  /** The list holds each hidden value once, the longest first. */
  ghost predicate IsRedactList(list: seq<string>, data: Data) {
    && (forall value :: value in list <==> Hidden(data, value))
    && (forall i, j :: 0 <= i < j < |list| ==> list[i] != list[j] && |list[i]| >= |list[j]|)
  }

  function HiddenValues(data: Data): set<string> {
    set group, field | group in data && field in data[group] && IsSecret(data[group][field])
                       && |data[group][field].value| >= MIN_REDACT :: data[group][field].value
  }

  lemma HiddenIs(data: Data, value: string)
    ensures value in HiddenValues(data) <==> Hidden(data, value)
  {
  }

  predicate Sorted(list: seq<string>) { forall i, j :: 0 <= i < j < |list| ==> |list[i]| >= |list[j]| }

  /** How many values at the front are at least `n` long. */
  function Longer(list: seq<string>, n: nat): (k: nat)
    ensures k <= |list| && (forall i :: 0 <= i < k ==> |list[i]| >= n) && (k < |list| ==> |list[k]| < n)
  {
    if list == [] || |list[0]| < n then 0 else Longer(list[1..], n) + 1
  }

  function InsertSorted(list: seq<string>, value: string): seq<string> {
    var k := Longer(list, |value|);
    list[..k] + [value] + list[k..]
  }

  lemma InsertKeeps(list: seq<string>, value: string)
    requires Sorted(list)
    ensures Sorted(InsertSorted(list, value)) && multiset(InsertSorted(list, value)) == multiset(list) + multiset{value}
  {
    var k := Longer(list, |value|);
    InsertCounts(list[..k], value, list[k..]);
    assert list == list[..k] + list[k..];
    InsertSorts(list, k, value);
    hide Longer, Sorted;
  }

  lemma InsertCounts(x: seq<string>, value: string, y: seq<string>)
    ensures multiset(x + [value] + y) == multiset(x + y) + multiset{value}
  {
  }

  lemma InsertSorts(list: seq<string>, k: nat, value: string)
    requires Sorted(list) && k <= |list| && (forall i :: 0 <= i < k ==> |list[i]| >= |value|)
    requires k < |list| ==> |list[k]| < |value|
    ensures Sorted(list[..k] + [value] + list[k..])
  {
  }

  /** Sorts the values by length, longest first. */
  method SortByLength(values: set<string>) returns (list: seq<string>)
    ensures Sorted(list) && multiset(list) == multiset(values)
  {
    list := [];
    var left := values;
    while left != {}
      invariant Sorted(list) && left <= values && multiset(list) + multiset(left) == multiset(values)
      decreases left
    {
      var value :| value in left;
      InsertKeeps(list, value);
      list := InsertSorted(list, value);
      left := left - {value};
    }
  }

  // ---------------------------------------------------------------------------
  // The operations
  // ---------------------------------------------------------------------------

  function GroupOf(data: Data, group: string): Group { if group in data then data[group] else map[] }

  /** A field that is secret stays so; a new field is secret unless asked for otherwise. */
  function Kind(data: Data, group: string, field: string, wanted: Option<bool>): bool {
    if InData(data, group, field) then IsSecret(data[group][field]) || wanted == Some(true) else wanted != Some(false)
  }

  function WithField(data: Data, group: string, field: string, f: Field): Data {
    data[group := GroupOf(data, group)[field := f]]
  }

  function SetError(status: Status, group: string, field: string, value: string): Option<Error> {
    if status == Locked || status == Broken then Some(StoreLocked)
    else if !ValidName(group) || !ValidName(field) then Some(InvalidName)
    else if value == "" || ByteLength(value) > MAX_VALUE then Some(InvalidValue)
    else None
  }

  function NameError(status: Status, group: string, field: Option<string>): Option<Error> {
    if status == Locked || status == Broken then Some(StoreLocked)
    else if !ValidName(group) || (field.Some? && !ValidName(field.value)) then Some(InvalidName)
    else None
  }

  function SetIn(data: Data, group: string, field: string, value: string, wanted: Option<bool>, now: int): Data {
    WithField(data, group, field, Field(value, now, Some(Kind(data, group, field, wanted))))
  }

  function MarkIn(data: Data, group: string, field: string): Data {
    if InData(data, group, field) && !IsSecret(data[group][field])
    then WithField(data, group, field, data[group][field].(secret := Some(true)))
    else data
  }

  /** Removes the field, the group with its last field, or the whole group. */
  function RemoveIn(data: Data, group: string, field: Option<string>): Data {
    if group !in data then data
    else if field.None? then data - {group}
    else
      var left := data[group] - {field.value};
      if field.value !in data[group] then data else if left == map[] then data - {group} else data[group := left]
  }

  class SecretStore {
    var data: Data
    var status: Status
    var redactList: seq<string>

    ghost predicate Valid()
      reads this
    {
      IsRedactList(redactList, data)
    }

    constructor ()
      ensures Valid() && data == map[] && status == Empty
    {
      data, status, redactList := map[], Empty, [];
      new;
      assert IsRedactList([], map[]);
    }

    /** The store as it was read from its file, or found locked. */
    constructor Loaded(data: Data, status: Status)
      ensures Valid() && this.data == data && this.status == status
    {
      this.data, this.status, redactList := data, status, [];
      new;
      RebuildRedact();
    }

    method RebuildRedact()
      modifies this`redactList
      ensures Valid()
    {
      var values := HiddenValues(data);
      redactList := SortByLength(values);
      ListIs(redactList, values, data);
    }

    method Save()
      modifies this`status, this`redactList
      ensures Valid() && status == Ready
    {
      status := Ready;
      RebuildRedact();
    }

    method Set(group: string, field: string, value: string, wanted: Option<bool>, now: int) returns (r: Result<bool>)
      requires Valid()
      modifies this
      ensures Valid()
      ensures match SetError(old(status), group, field, value)
              case Some(error) => r == Failure(error) && data == old(data) && status == old(status)
              case None => r == Success(Kind(old(data), group, field, wanted)) && status == Ready
                           && data == SetIn(old(data), group, field, value, wanted, now)
    {
      if status == Locked || status == Broken {
        return Failure(StoreLocked);
      }
      if !ValidName(group) || !ValidName(field) {
        return Failure(InvalidName);
      }
      if |value| == 0 || ByteLength(value) > MAX_VALUE {
        return Failure(InvalidValue);
      }
      var fields := if group in data then data[group] else map[];
      var secret := if field in fields then IsSecret(fields[field]) || wanted == Some(true) else wanted != Some(false);
      data := data[group := fields[field := Field(value, now, Some(secret))]];
      Save();
      r := Success(secret);
    }

    method Mark(group: string, field: string) returns (r: Result<bool>)
      requires Valid()
      modifies this
      ensures Valid()
      ensures match NameError(old(status), group, Some(field))
              case Some(error) => r == Failure(error) && data == old(data)
              case None => r == Success(InData(old(data), group, field)) && data == MarkIn(old(data), group, field)
    {
      if status == Locked || status == Broken {
        return Failure(StoreLocked);
      }
      if !ValidName(group) || !ValidName(field) {
        return Failure(InvalidName);
      }
      if group !in data || field !in data[group] {
        return Success(false);
      }
      if !IsSecret(data[group][field]) {
        data := data[group := data[group][field := data[group][field].(secret := Some(true))]];
        Save();
      }
      r := Success(true);
    }

    method Remove(group: string, field: Option<string>) returns (r: Result<bool>)
      requires Valid()
      modifies this
      ensures Valid()
      ensures match NameError(old(status), group, field)
              case Some(error) => r == Failure(error) && data == old(data)
              case None => r == Success(group in old(data) && (field.None? || field.value in old(data)[group]))
                           && data == RemoveIn(old(data), group, field)
    {
      if status == Locked || status == Broken {
        return Failure(StoreLocked);
      }
      if !ValidName(group) || (field.Some? && !ValidName(field.value)) {
        return Failure(InvalidName);
      }
      if group !in data {
        return Success(false);
      }
      if field.None? {
        data := data - {group};
      } else {
        if field.value !in data[group] {
          return Success(false);
        }
        var left := data[group] - {field.value};
        data := if left == map[] then data - {group} else data[group := left];
      }
      Save();
      r := Success(true);
    }

    /** A log line with every hidden value replaced. */
    method RedactLine(line: string) returns (out: string)
      requires Valid()
      ensures Redaction.NonEmpty(redactList) && out == Redaction.RedactAll(line, redactList)
      ensures forall value :: Hidden(data, value) && Redaction.Safe(value) ==> !Redaction.Includes(out, value)
    {
      HiddenNonEmpty(redactList, data);
      out := Redaction.Redact(line, redactList);
      forall value | Hidden(data, value) && Redaction.Safe(value) ensures !Redaction.Includes(out, value) {
        Redaction.NothingLeft(line, redactList, value);
      }
    }
  }

  lemma ListIs(list: seq<string>, values: set<string>, data: Data)
    requires Sorted(list) && multiset(list) == multiset(values) && values == HiddenValues(data)
    ensures IsRedactList(list, data)
  {
    forall value ensures value in list <==> Hidden(data, value) {
      assert value in list <==> value in multiset(list);
      HiddenIs(data, value);
    }
    forall i, j | 0 <= i < j < |list| ensures list[i] != list[j] {
      TwiceCounts(list, i, j);
      assert multiset(values)[list[i]] <= 1;
    }
  }

  lemma TwiceCounts(list: seq<string>, i: nat, j: nat)
    requires i < j < |list|
    ensures list[i] == list[j] ==> multiset(list)[list[i]] >= 2
  {
    assert list == list[..i] + ([list[i]] + (list[i + 1..j] + ([list[j]] + list[j + 1..])));
    assert multiset(list) == multiset(list[..i]) + multiset{list[i]} + multiset(list[i + 1..j]) + multiset{list[j]}
           + multiset(list[j + 1..]);
  }

  lemma HiddenNonEmpty(list: seq<string>, data: Data)
    requires IsRedactList(list, data)
    ensures Redaction.NonEmpty(list)
  {
    forall i | 0 <= i < |list| ensures list[i] != "" {
      assert list[i] in list;
    }
  }

  // ---------------------------------------------------------------------------
  // Once secret, secret until removed
  // ---------------------------------------------------------------------------

  datatype Op =
    | SetOp(group: string, field: string, value: string, wanted: Option<bool>, now: int)
    | MarkOp(group: string, field: string)
    | RemoveOp(group: string, removed: Option<string>)

  /** The data after an operation on a store that is not locked. */
  function Apply(data: Data, op: Op): Data {
    match op
    case SetOp(group, field, value, wanted, now) =>
      if SetError(Ready, group, field, value).Some? then data else SetIn(data, group, field, value, wanted, now)
    case MarkOp(group, field) =>
      if NameError(Ready, group, Some(field)).Some? then data else MarkIn(data, group, field)
    case RemoveOp(group, field) =>
      if NameError(Ready, group, field).Some? then data else RemoveIn(data, group, field)
  }

  /** The operation takes the field away. */
  predicate Removes(op: Op, group: string, field: string) {
    op.RemoveOp? && op.group == group && (op.removed.None? || op.removed.value == field)
        && NameError(Ready, group, op.removed).None?
  }

  /** The operation makes the field secret if it is not. */
  predicate MakesSecret(data: Data, op: Op, group: string, field: string) {
    match op
    case SetOp(g, f, value, wanted, _) =>
      g == group && f == field && SetError(Ready, g, f, value).None?
      && (if InData(data, g, f) then wanted == Some(true) else wanted != Some(false))
    case MarkOp(g, f) => g == group && f == field && NameError(Ready, g, Some(f)).None? && InData(data, g, f)
    case RemoveOp(_, _) => false
  }

  lemma SetSecret(data: Data, g: string, f: string, value: string, wanted: Option<bool>, now: int, group: string,
      field: string)
    ensures SecretIn(SetIn(data, g, f, value, wanted, now), group, field) <==>
            if g == group && f == field then Kind(data, g, f, wanted) else SecretIn(data, group, field)
  {
  }

  lemma MarkSecret(data: Data, g: string, f: string, group: string, field: string)
    ensures SecretIn(MarkIn(data, g, f), group, field) <==>
            SecretIn(data, group, field) || (g == group && f == field && InData(data, g, f))
  {
  }

  lemma RemoveSecret(data: Data, g: string, f: Option<string>, group: string, field: string)
    ensures SecretIn(RemoveIn(data, g, f), group, field) <==>
            SecretIn(data, group, field) && !(g == group && (f.None? || f.value == field))
  {
    if g in data && f.Some? && f.value in data[g] {
      var left := data[g] - {f.value};
      assert left == map[] ==> forall k :: k in data[g] ==> k == f.value by {
        if left == map[] {
          forall k | k in data[g] ensures k == f.value {
            assert k !in left;
          }
        }
      }
    }
  }

  /** After an operation a field is secret exactly when it was and was not removed, or the operation made it so. */
  lemma SecretAfterExactly(data: Data, op: Op, group: string, field: string)
    ensures SecretIn(Apply(data, op), group, field) <==>
            (SecretIn(data, group, field) && !Removes(op, group, field)) || MakesSecret(data, op, group, field)
  {
    hide ValidName, SetIn, MarkIn, RemoveIn;
    match op {
      case SetOp(g, f, value, wanted, now) => SetSecret(data, g, f, value, wanted, now, group, field);
      case MarkOp(g, f) => MarkSecret(data, g, f, group, field);
      case RemoveOp(g, f) => RemoveSecret(data, g, f, group, field);
    }
  }

  function Run(data: Data, ops: seq<Op>): Data
    decreases ops
  {
    if ops == [] then data else Run(Apply(data, ops[0]), ops[1..])
  }

  /** Over every run of operations a secret field stays secret as long as none removes it. */
  lemma {:induction false} SecretUntilRemoved(data: Data, ops: seq<Op>, group: string, field: string)
    requires SecretIn(data, group, field) && forall i :: 0 <= i < |ops| ==> !Removes(ops[i], group, field)
    ensures SecretIn(Run(data, ops), group, field)
    decreases ops
  {
    if ops != [] {
      SecretAfterExactly(data, ops[0], group, field);
      SecretUntilRemoved(Apply(data, ops[0]), ops[1..], group, field);
    }
    hide Apply, SecretIn, Removes;
  }
}
