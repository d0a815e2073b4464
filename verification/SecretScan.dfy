/**
 * Budgeted secret scanning
 * (packages/cardano-agent/src/security/walletSecrets.ts:102-138 and 215-253,
 * packages/cardano-agent/src/privateComparison/privateDocumentProtocol.ts:115-148).
 *
 * Every budget fails closed: running out of it counts as a find.  Word lists, the checksum and the
 * regular expressions are parameters.
 */
module SecretScan {
  import opened Wrappers
  import opened TextUnits

  // ---------------------------------------------------------------- inspectJson

  const MAX_JSON_DEPTH := 8
  const MAX_JSON_NODES := 256

  datatype Json = Atom | Str(text: string) | Arr(items: seq<Json>) | Obj(fields: seq<Field>)
  datatype Field = Field(key: string, child: Json)

  // What makes a key or a value tell-tale: keys `type`, and `cborhex` or `bytes`; key type names.
  datatype Tests = Tests(isTypeKey: string -> bool, isMaterialKey: string -> bool, isSigningType: string -> bool)

  function Nodes(v: Json): (n: nat)
    ensures n >= 1
  {
    match v
    case Arr(items) => 1 + NodesOfItems(items)
    case Obj(fields) => 1 + NodesOfFields(fields)
    case _ => 1
  }

  function NodesOfItems(items: seq<Json>): nat {
    if |items| == 0 then 0 else NodesOfItems(items[..|items| - 1]) + Nodes(items[|items| - 1])
  }

  function NodesOfFields(fields: seq<Field>): nat {
    if |fields| == 0 then 0 else NodesOfFields(fields[..|fields| - 1]) + Nodes(fields[|fields| - 1].child)
  }

  function Max(a: nat, b: nat): nat { if a >= b then a else b }

  // How deep the deepest value lies below this one.
  function Height(v: Json): nat {
    match v
    case Arr(items) => HeightOfItems(items)
    case Obj(fields) => HeightOfFields(fields)
    case _ => 0
  }

  function HeightOfItems(items: seq<Json>): nat {
    if |items| == 0 then 0 else Max(HeightOfItems(items[..|items| - 1]), 1 + Height(items[|items| - 1]))
  }

  function HeightOfFields(fields: seq<Field>): nat {
    if |fields| == 0 then 0 else Max(HeightOfFields(fields[..|fields| - 1]), 1 + Height(fields[|fields| - 1].child))
  }

  predicate NamesType(t: Tests, f: Field) { t.isTypeKey(f.key) && f.child.Str? && t.isSigningType(f.child.text) }

  predicate HoldsMaterial(t: Tests, f: Field) { t.isMaterialKey(f.key) && f.child.Str? && |f.child.text| > 0 }

  // Is there a field with the property anywhere inside?
  predicate HasField(t: Tests, type_: bool, v: Json) {
    match v
    case Arr(items) => HasFieldInItems(t, type_, items)
    case Obj(fields) => HasFieldInFields(t, type_, fields)
    case _ => false
  }

  predicate HasFieldInItems(t: Tests, type_: bool, items: seq<Json>) {
    |items| > 0 && (HasFieldInItems(t, type_, items[..|items| - 1]) || HasField(t, type_, items[|items| - 1]))
  }

  predicate HasFieldInFields(t: Tests, type_: bool, fields: seq<Field>) {
    |fields| > 0 && (HasFieldInFields(t, type_, fields[..|fields| - 1])
                     || (if type_ then NamesType(t, fields[|fields| - 1]) else HoldsMaterial(t, fields[|fields| - 1]))
                     || HasField(t, type_, fields[|fields| - 1].child))
  }

  class Inspection {
    var hasSigningKeyType: bool
    var hasKeyMaterial: bool
    var nodes: nat
    var exhausted: bool

    constructor ()
      ensures !hasSigningKeyType && !hasKeyMaterial && nodes == 0 && !exhausted
    {
      hasSigningKeyType, hasKeyMaterial, nodes, exhausted := false, false, 0, false;
    }

    // Within the budget, all of the value is seen and the flags are exact; else the inspection is
    // exhausted, and it is exhausted only then.
    method InspectJson(t: Tests, value: Json, depth: nat)
      requires nodes <= MAX_JSON_NODES
      modifies this
      ensures nodes <= MAX_JSON_NODES
      ensures exhausted
              <==> old(exhausted) || old(nodes) + Nodes(value) > MAX_JSON_NODES
                   || depth + Height(value) > MAX_JSON_DEPTH
      ensures !exhausted ==>
                && nodes == old(nodes) + Nodes(value)
                && (hasSigningKeyType <==> old(hasSigningKeyType) || HasField(t, true, value))
                && (hasKeyMaterial <==> old(hasKeyMaterial) || HasField(t, false, value))
      decreases value
    {
      hide NodesOfItems, NodesOfFields, HeightOfItems, HeightOfFields, HasFieldInItems, HasFieldInFields;
      NothingYet(t);
      if exhausted { return; }
      if nodes >= MAX_JSON_NODES || depth > MAX_JSON_DEPTH {
        exhausted := true;
        return;
      }
      nodes := nodes + 1;
      match value {
        case Atom =>
        case Str(_) =>
        case Arr(items) =>
          var i := 0;
          assert items[..0] == [];
          while i < |items|
            invariant 0 <= i <= |items| && nodes <= MAX_JSON_NODES
            invariant exhausted
                      <==> old(nodes) + 1 + NodesOfItems(items[..i]) > MAX_JSON_NODES
                           || depth + HeightOfItems(items[..i]) > MAX_JSON_DEPTH
            invariant !exhausted ==>
                        && nodes == old(nodes) + 1 + NodesOfItems(items[..i])
                        && (hasSigningKeyType <==> old(hasSigningKeyType) || HasFieldInItems(t, true, items[..i]))
                        && (hasKeyMaterial <==> old(hasKeyMaterial) || HasFieldInItems(t, false, items[..i]))
          {
            ItemsStep(t, items, i);
            InspectJson(t, items[i], depth + 1);
            i := i + 1;
            if exhausted {
              ItemsGrow(items, i);
              break;
            }
          }
          assert items[..|items|] == items;
        case Obj(fields) =>
          var i := 0;
          assert fields[..0] == [];
          while i < |fields|
            invariant 0 <= i <= |fields| && nodes <= MAX_JSON_NODES
            invariant exhausted
                      <==> old(nodes) + 1 + NodesOfFields(fields[..i]) > MAX_JSON_NODES
                           || depth + HeightOfFields(fields[..i]) > MAX_JSON_DEPTH
            invariant !exhausted ==>
                        && nodes == old(nodes) + 1 + NodesOfFields(fields[..i])
                        && (hasSigningKeyType <==> old(hasSigningKeyType) || HasFieldInFields(t, true, fields[..i]))
                        && (hasKeyMaterial <==> old(hasKeyMaterial) || HasFieldInFields(t, false, fields[..i]))
          {
            FieldsStep(t, fields, i);
            var key, child := fields[i].key, fields[i].child;
            if t.isTypeKey(key) && child.Str? { hasSigningKeyType := hasSigningKeyType || t.isSigningType(child.text); }
            if t.isMaterialKey(key) && child.Str? && |child.text| > 0 { hasKeyMaterial := true; }
            InspectJson(t, child, depth + 1);
            i := i + 1;
            if exhausted {
              FieldsGrow(fields, i);
              break;
            }
          }
          assert fields[..|fields|] == fields;
      }
    }
  }

  lemma {:induction false} ItemsStep(t: Tests, items: seq<Json>, i: nat)
    requires i < |items|
    ensures NodesOfItems(items[..i + 1]) == NodesOfItems(items[..i]) + Nodes(items[i])
    ensures HeightOfItems(items[..i + 1]) == Max(HeightOfItems(items[..i]), 1 + Height(items[i]))
    ensures forall b ::
              HasFieldInItems(t, b, items[..i + 1]) <==> HasFieldInItems(t, b, items[..i]) || HasField(t, b, items[i])
  {
    assert items[..i + 1][..i] == items[..i];
  }

  lemma {:induction false} FieldStep(t: Tests, type_: bool, fields: seq<Field>, i: nat)
    requires i < |fields|
    ensures HasFieldInFields(t, type_, fields[..i + 1]) <==>
              HasFieldInFields(t, type_, fields[..i])
                  || (if type_ then NamesType(t, fields[i]) else HoldsMaterial(t, fields[i]))
              || HasField(t, type_, fields[i].child)
  {
    assert fields[..i + 1][..i] == fields[..i];
  }

  lemma {:induction false} NothingYet(t: Tests)
    ensures NodesOfItems([]) == 0 && HeightOfItems([]) == 0 && !HasFieldInItems(t, true, [])
            && !HasFieldInItems(t, false, [])
    ensures NodesOfFields([]) == 0 && HeightOfFields([]) == 0 && !HasFieldInFields(t, true, [])
            && !HasFieldInFields(t, false, [])
  {
  }

  lemma {:induction false} FieldsStep(t: Tests, fields: seq<Field>, i: nat)
    requires i < |fields|
    ensures NodesOfFields(fields[..i + 1]) == NodesOfFields(fields[..i]) + Nodes(fields[i].child)
    ensures HeightOfFields(fields[..i + 1]) == Max(HeightOfFields(fields[..i]), 1 + Height(fields[i].child))
    ensures HasFieldInFields(t, true, fields[..i + 1]) <==>
              HasFieldInFields(t, true, fields[..i]) || NamesType(t, fields[i]) || HasField(t, true, fields[i].child)
    ensures HasFieldInFields(t, false, fields[..i + 1]) <==>
              HasFieldInFields(t, false, fields[..i]) || HoldsMaterial(t, fields[i])
                  || HasField(t, false, fields[i].child)
  {
    assert fields[..i + 1][..i] == fields[..i];
    FieldStep(t, true, fields, i);
    FieldStep(t, false, fields, i);
  }

  lemma {:induction false} ItemsGrow(items: seq<Json>, i: nat)
    requires i <= |items|
    ensures NodesOfItems(items[..i]) <= NodesOfItems(items) && HeightOfItems(items[..i]) <= HeightOfItems(items)
    decreases |items|
  {
    if i < |items| {
      ItemsGrow(items[..|items| - 1], i);
      assert items[..|items| - 1][..i] == items[..i];
    } else {
      assert items[..i] == items;
    }
  }

  lemma {:induction false} FieldsGrow(fields: seq<Field>, i: nat)
    requires i <= |fields|
    ensures NodesOfFields(fields[..i]) <= NodesOfFields(fields) && HeightOfFields(fields[..i]) <= HeightOfFields(fields)
    decreases |fields|
  {
    if i < |fields| {
      FieldsGrow(fields[..|fields| - 1], i);
      assert fields[..|fields| - 1][..i] == fields[..i];
    } else {
      assert fields[..i] == fields;
    }
  }

  // A parsed candidate passes exactly when it is within the budget and lacks one of the two fields.
  method InspectParsed(t: Tests, value: Json) returns (clean: bool)
    ensures clean <==> Nodes(value) <= MAX_JSON_NODES && Height(value) <= MAX_JSON_DEPTH
                       && !(HasField(t, true, value) && HasField(t, false, value))
  {
    var inspection := new Inspection();
    inspection.InspectJson(t, value, 0);
    if inspection.exhausted { return false; }
    return !(inspection.hasSigningKeyType && inspection.hasKeyMaterial);
  }

  // ---------------------------------------------------------------- hasValidRecoveryPhrase

  const MAX_MNEMONIC_VALIDATIONS := 64
  const MAX_RUN := 24

  predicate IsPhraseLength(n: nat) { n == 12 || n == 15 || n == 18 || n == 21 || n == 24 }

  // How many tokens of the list stand together before this offset.
  function RunAt(tokens: seq<string>, words: set<string>, e: nat): (n: nat)
    requires e <= |tokens|
    ensures n <= e && forall i | e - n <= i < e :: tokens[i] in words
    ensures n < e ==> tokens[e - n - 1] !in words
  {
    if e == 0 || tokens[e - 1] !in words then 0 else RunAt(tokens, words, e - 1) + 1
  }

  type Checksum = (seq<string>, set<string>) -> bool

  // A stretch of tokens that passes the checksum of a list.
  predicate Passes(tokens: seq<string>, words: set<string>, isValid: Checksum, from: nat, length: nat) {
    from + length <= |tokens| && isValid(tokens[from..from + length], words)
  }

  predicate InList(tokens: seq<string>, words: set<string>, from: nat, length: nat) {
    from + length <= |tokens| && forall i | from <= i < from + length :: tokens[i] in words
  }

  // The lengths of phrases a run this long can hold, 12, 15, 18, 21 and 24 in turn.
  function Lengths(run: nat): nat {
    (if run >= 12 then 1 else 0) + (if run >= 15 then 1 else 0) + (if run >= 18 then 1 else 0) + (if run >= 21 then 1
            else 0) + (if run >= 24 then 1 else 0)
  }

  // How many windows end at or before the offset.
  function Windows(tokens: seq<string>, words: set<string>, e: nat): nat
    requires e <= |tokens|
  {
    if e == 0 then 0 else Windows(tokens, words, e - 1) + Lengths(RunAt(tokens, words, e))
  }

  function AllWindows(tokens: seq<string>, lists: seq<set<string>>): nat {
    if |lists| == 0 then 0 else AllWindows(tokens, lists[..|lists| - 1]) + Windows(tokens, lists[|lists| - 1], |tokens|)
  }

  function Fit(run: nat, length: nat): nat { if run >= length then run - length + 1 else 0 }

  // The windows of one run, by length.
  function WindowsOfRun(run: nat): nat { Fit(run, 12) + Fit(run, 15) + Fit(run, 18) + Fit(run, 21) + Fit(run, 24) }

  lemma {:induction false} OneMoreToken(run: nat)
    requires run > 0
    ensures WindowsOfRun(run) == WindowsOfRun(run - 1) + Lengths(run) && WindowsOfRun(0) == 0
  {
  }

  lemma {:induction false} RunHoldsItsWindows(tokens: seq<string>, words: set<string>, e: nat, k: nat)
    requires e <= |tokens| && k <= RunAt(tokens, words, e)
    ensures RunAt(tokens, words, e - RunAt(tokens, words, e) + k) == k
    ensures Windows(tokens, words, e - RunAt(tokens, words, e) + k) == Windows(tokens, words,
            e - RunAt(tokens, words, e)) + WindowsOfRun(k)
    decreases k
  {
    hide WindowsOfRun, Lengths;
    var b := e - RunAt(tokens, words, e);
    OneMoreToken(1);
    if k > 0 {
      OneMoreToken(k);
      RunHoldsItsWindows(tokens, words, e, k - 1);
      assert tokens[b + k - 1] in words;
    } else {
      assert b > 0 ==> tokens[b - 1] !in words;
    }
  }

  // A window is a valid phrase of the list it lies in.
  ghost predicate HasPhrase(tokens: seq<string>, words: set<string>, isValid: Checksum, e: nat) {
    exists from: nat, length: nat :: from + length <= e && IsPhraseLength(length) && InList(tokens, words, from, length)
                                     && Passes(tokens, words, isValid, from, length)
  }

  ghost predicate NonePasses(tokens: seq<string>, words: set<string>, isValid: Checksum, b: nat, e: nat) {
    forall from: nat, length: nat | b <= from && from + length <= e
        && IsPhraseLength(length) :: !Passes(tokens, words, isValid, from, length)
  }

  predicate HasLongRun(tokens: seq<string>, words: set<string>, e: nat)
    requires e <= |tokens|
  {
    exists k :: 0 <= k <= e && RunAt(tokens, words, k) > MAX_RUN
  }

  // What a false answer means.
  ghost predicate IsClean(tokens: seq<string>, lists: seq<set<string>>, isValid: Checksum) {
    && AllWindows(tokens, lists) <= MAX_MNEMONIC_VALIDATIONS
    && forall j | 0 <= j < |lists| ::
       !HasLongRun(tokens, lists[j], |tokens|) && !HasPhrase(tokens, lists[j], isValid, |tokens|)
  }

  lemma {:induction false} WindowIsInRun(tokens: seq<string>, words: set<string>, from: nat, length: nat)
    requires from + length <= |tokens|
    ensures InList(tokens, words, from, length) <==> RunAt(tokens, words, from + length) >= length
  {
    var n := RunAt(tokens, words, from + length);
    if n < length { assert tokens[from + length - n - 1] !in words; }
  }

  // Up to an offset between runs: what has been counted, and that nothing was found.
  ghost predicate ScannedTo(tokens: seq<string>, words: set<string>, isValid: Checksum, e: nat)
    requires e <= |tokens|
  {
    !HasLongRun(tokens, words, e) && !HasPhrase(tokens, words, isValid, e)
  }

  const PHRASE_LENGTHS: seq<nat> := [12, 15, 18, 21, 24]

  function FitSum(run: nat, k: nat): nat
    requires k <= |PHRASE_LENGTHS|
  {
    if k == 0 then 0 else FitSum(run, k - 1) + Fit(run, PHRASE_LENGTHS[k - 1])
  }

  lemma {:induction false} FitSumIsAll(run: nat)
    ensures FitSum(run, 5) == WindowsOfRun(run)
  {
    assert FitSum(run, 1) == Fit(run, 12) && FitSum(run, 2) == FitSum(run, 1) + Fit(run, 15)
        && FitSum(run, 3) == FitSum(run, 2) + Fit(run, 18);
    assert FitSum(run, 4) == FitSum(run, 3) + Fit(run, 21) && FitSum(run, 5) == FitSum(run, 4) + Fit(run, 24);
  }

  lemma {:induction false} FitSumGrows(run: nat, a: nat, b: nat)
    requires a <= b <= |PHRASE_LENGTHS|
    ensures FitSum(run, a) <= FitSum(run, b)
    decreases b
  {
    if a < b { FitSumGrows(run, a, b - 1); }
  }

  class PhraseScan {
    const isValid: Checksum
    var mnemonicValidations: nat

    constructor (isValid: Checksum)
      ensures this.isValid == isValid && mnemonicValidations == 0
    {
      this.isValid, mnemonicValidations := isValid, 0;
    }

    method ValidateWindow(candidate: seq<string>, words: set<string>) returns (found: bool)
      requires mnemonicValidations <= MAX_MNEMONIC_VALIDATIONS
      modifies this
      ensures mnemonicValidations <= MAX_MNEMONIC_VALIDATIONS
      ensures found <==> old(mnemonicValidations) == MAX_MNEMONIC_VALIDATIONS || isValid(candidate, words)
      ensures old(mnemonicValidations) < MAX_MNEMONIC_VALIDATIONS ==>
              mnemonicValidations == old(mnemonicValidations) + 1
    {
      if mnemonicValidations >= MAX_MNEMONIC_VALIDATIONS { return true; }
      mnemonicValidations := mnemonicValidations + 1;
      return isValid(candidate, words);
    }

    // Every window of the run from b to e is checked once, unless something is found.
    method InspectRun(tokens: seq<string>, words: set<string>, b: nat, e: nat) returns (found: bool)
      requires b <= e <= |tokens| && RunAt(tokens, words, e) == e - b && mnemonicValidations <= MAX_MNEMONIC_VALIDATIONS
      modifies this
      ensures mnemonicValidations <= MAX_MNEMONIC_VALIDATIONS
      ensures !found ==> e - b <= MAX_RUN && mnemonicValidations == old(mnemonicValidations) + WindowsOfRun(e - b)
                         && NonePasses(tokens, words, isValid, b, e)
      ensures found ==> e - b > MAX_RUN || old(mnemonicValidations) + WindowsOfRun(e - b) > MAX_MNEMONIC_VALIDATIONS
                        || !NonePasses(tokens, words, isValid, b, e)
    {
      hide RunAt, FitSum, WindowsOfRun;
      FitSumIsAll(e - b);
      if e - b > MAX_RUN { return true; }
      if e - b < 12 {
        assert WindowsOfRun(e - b) == 0 by { ShortRun(e - b); }
        return false;
      }
      var k := 0;
      FitSumGrows(e - b, 0, 5);
      assert FitSum(e - b, 0) == 0 by { NoFit(e - b); }
      while k < |PHRASE_LENGTHS|
        invariant 0 <= k <= |PHRASE_LENGTHS| && mnemonicValidations <= MAX_MNEMONIC_VALIDATIONS
        invariant mnemonicValidations == old(mnemonicValidations) + FitSum(e - b, k)
        invariant forall j: nat, from: nat | j < k && b <= from && from + PHRASE_LENGTHS[j] <= e ::
                    !Passes(tokens, words, isValid, from, PHRASE_LENGTHS[j])
      {
        var length := PHRASE_LENGTHS[k];
        var start := b;
        FitSumGrows(e - b, k + 1, 5);
        FitSumStep(e - b, k);
        while start + length <= e
          invariant b <= start && (start + length <= e + 1 || start == b)
          invariant mnemonicValidations <= MAX_MNEMONIC_VALIDATIONS
          invariant mnemonicValidations == old(mnemonicValidations) + FitSum(e - b, k) + (start - b)
          invariant forall from: nat | b <= from < start
                    && from + length <= e :: !Passes(tokens, words, isValid, from, length)
        {
          found := ValidateWindow(tokens[start..start + length], words);
          if found {
            if isValid(tokens[start..start + length], words) { assert Passes(tokens, words, isValid, start, length); }
            return;
          }
          start := start + 1;
        }
        k := k + 1;
      }
      forall from: nat, length: nat | b <= from && from + length <= e && IsPhraseLength(length)
        ensures !Passes(tokens, words, isValid, from, length)
      {
        var j: nat := if length == 12 then 0 else if length == 15 then 1 else if length == 18 then 2
            else if length == 21 then 3 else 4;
        assert PHRASE_LENGTHS[j] == length;
      }
      return false;
    }
  }

  lemma {:induction false} ShortRun(run: nat)
    requires run < 12
    ensures WindowsOfRun(run) == 0
  {
  }

  lemma {:induction false} NoFit(run: nat)
    ensures FitSum(run, 0) == 0
  {
  }

  lemma {:induction false} FitSumStep(run: nat, k: nat)
    requires k < |PHRASE_LENGTHS|
    ensures FitSum(run, k + 1) == FitSum(run, k) + Fit(run, PHRASE_LENGTHS[k])
  {
  }

  // A run that was inspected without a find is scanned.
  lemma {:induction false} RunScanned(tokens: seq<string>, words: set<string>, isValid: Checksum, b: nat, e: nat)
    requires b <= e <= |tokens| && RunAt(tokens, words, e) == e - b <= MAX_RUN && ScannedTo(tokens, words, isValid, b)
    requires NonePasses(tokens, words, isValid, b, e)
    ensures ScannedTo(tokens, words, isValid, e)
  {
    forall k | 0 <= k <= e ensures RunAt(tokens, words, k) <= MAX_RUN {
      if k > b { RunHoldsItsWindows(tokens, words, e, k - b); }
    }
    forall from: nat, length: nat | from + length <= e && IsPhraseLength(length) && InList(tokens, words, from, length)
      ensures !Passes(tokens, words, isValid, from, length)
    {
      if from + length > b {
        WindowIsInRun(tokens, words, from, length);
        RunHoldsItsWindows(tokens, words, e, from + length - b);
      } else {
        assert !HasPhrase(tokens, words, isValid, b);
      }
    }
  }

  lemma {:induction false} BudgetCounts(tokens: seq<string>, lists: seq<set<string>>, j: nat, b: nat, e: nat)
    requires j < |lists| && b <= e <= |tokens| && RunAt(tokens, lists[j], e) == e - b
    ensures AllWindows(tokens, lists[..j]) + Windows(tokens, lists[j], b) + WindowsOfRun(e - b)
            <= AllWindows(tokens, lists)
  {
    hide RunAt, Windows, AllWindows, WindowsOfRun;
    RunHoldsItsWindows(tokens, lists[j], e, e - b);
    WindowsGrow(tokens, lists[j], e, |tokens|);
    AllWindowsGrow(tokens, lists, j);
  }

  lemma {:induction false} PhraseCounts(tokens: seq<string>, words: set<string>, isValid: Checksum, b: nat, e: nat)
    requires b <= e <= |tokens| && RunAt(tokens, words, e) == e - b && !NonePasses(tokens, words, isValid, b, e)
    ensures HasPhrase(tokens, words, isValid, |tokens|)
  {
    var from: nat, length: nat :| b <= from && from + length <= e && IsPhraseLength(length)
        && Passes(tokens, words, isValid, from, length);
    assert InList(tokens, words, from, length);
  }

  // A find means that the whole text is not clean.
  lemma {:induction false} FindsCount(tokens: seq<string>, lists: seq<set<string>>, isValid: Checksum, j: nat, b: nat,
                                      e: nat, before: nat)
    requires j < |lists| && b <= e <= |tokens| && RunAt(tokens, lists[j], e) == e - b
    requires before == AllWindows(tokens, lists[..j]) + Windows(tokens, lists[j], b)
    requires e - b > MAX_RUN || before + WindowsOfRun(e - b) > MAX_MNEMONIC_VALIDATIONS
             || !NonePasses(tokens, lists[j], isValid, b, e)
    ensures !IsClean(tokens, lists, isValid)
  {
    hide RunAt, Windows, AllWindows, WindowsOfRun, NonePasses, HasPhrase;
    BudgetCounts(tokens, lists, j, b, e);
    if e - b > MAX_RUN { assert HasLongRun(tokens, lists[j], |tokens|); }
    if !NonePasses(tokens, lists[j], isValid, b, e) { PhraseCounts(tokens, lists[j], isValid, b, e); }
  }

  lemma {:induction false} WindowsGrow(tokens: seq<string>, words: set<string>, a: nat, b: nat)
    requires a <= b <= |tokens|
    ensures Windows(tokens, words, a) <= Windows(tokens, words, b)
    decreases b
  {
    if a < b { WindowsGrow(tokens, words, a, b - 1); }
  }

  lemma {:induction false} AllWindowsGrow(tokens: seq<string>, lists: seq<set<string>>, j: nat)
    requires j < |lists|
    ensures AllWindows(tokens, lists[..j]) + Windows(tokens, lists[j], |tokens|) <= AllWindows(tokens, lists)
    decreases |lists|
  {
    if j < |lists| - 1 {
      AllWindowsGrow(tokens, lists[..|lists| - 1], j);
      assert lists[..|lists| - 1][..j] == lists[..j];
    }
  }

  lemma {:induction false} StartScan(tokens: seq<string>, words: set<string>, isValid: Checksum)
    ensures ScannedTo(tokens, words, isValid, 0) && Windows(tokens, words, 0) == 0 && RunAt(tokens, words, 0) == 0
  {
  }

  lemma {:induction false} RunStep(tokens: seq<string>, words: set<string>, e: nat)
    requires e < |tokens|
    ensures RunAt(tokens, words, e + 1) == if tokens[e] in words then RunAt(tokens, words, e) + 1 else 0
    ensures tokens[e] !in words ==> Windows(tokens, words, e + 1) == Windows(tokens, words, e)
  {
  }

  lemma {:induction false} ScanStep(tokens: seq<string>, words: set<string>, isValid: Checksum, e: nat)
    requires e < |tokens| && tokens[e] !in words && ScannedTo(tokens, words, isValid, e)
    ensures ScannedTo(tokens, words, isValid, e + 1)
  {
    assert RunAt(tokens, words, e + 1) == 0;
    forall from: nat, length: nat | from + length <= e + 1 && IsPhraseLength(length)
        && InList(tokens, words, from, length)
      ensures !Passes(tokens, words, isValid, from, length)
    {
      assert tokens[from + length - 1] in words;
      assert !HasPhrase(tokens, words, isValid, e);
    }
  }

  // False only if every window of every list was checked, all within the budget, and none is valid,
  // and no run is too long to check; and true only if one of these fails.
  method HasValidRecoveryPhrase(tokens: seq<string>, lists: seq<set<string>>, isValid: Checksum) returns (found: bool)
    ensures found <==> !IsClean(tokens, lists, isValid)
  {
    hide *;
    var scan := new PhraseScan(isValid);
    var listIndex := 0;
    NoLists(tokens, lists);
    while listIndex < |lists|
      invariant 0 <= listIndex <= |lists| && fresh(scan) && scan.isValid == isValid
      invariant scan.mnemonicValidations == AllWindows(tokens, lists[..listIndex]) <= MAX_MNEMONIC_VALIDATIONS
      invariant forall j | 0 <= j < listIndex :: ScannedTo(tokens, lists[j], isValid, |tokens|)
    {
      var words := lists[listIndex];
      var run := 0;
      StartScan(tokens, words, isValid);
      for e := 0 to |tokens|
        invariant run == RunAt(tokens, words, e) <= e && ScannedTo(tokens, words, isValid, e - run)
        invariant scan.isValid == isValid && fresh(scan) && scan.mnemonicValidations <= MAX_MNEMONIC_VALIDATIONS
        invariant scan.mnemonicValidations == AllWindows(tokens, lists[..listIndex]) + Windows(tokens, words, e - run)
      {
        RunStep(tokens, words, e);
        if tokens[e] in words {
          run := run + 1;
        } else {
          ghost var before := scan.mnemonicValidations;
          RunHoldsItsWindows(tokens, words, e, run);
          found := scan.InspectRun(tokens, words, e - run, e);
          if found {
            FindsCount(tokens, lists, isValid, listIndex, e - run, e, before);
            return;
          }
          RunScanned(tokens, words, isValid, e - run, e);
          ScanStep(tokens, words, isValid, e);
          run := 0;
        }
      }
      ghost var before := scan.mnemonicValidations;
      RunHoldsItsWindows(tokens, words, |tokens|, run);
      found := scan.InspectRun(tokens, words, |tokens| - run, |tokens|);
      if found {
        FindsCount(tokens, lists, isValid, listIndex, |tokens| - run, |tokens|, before);
        return;
      }
      RunScanned(tokens, words, isValid, |tokens| - run, |tokens|);
      OneMoreList(tokens, lists, listIndex);
      listIndex := listIndex + 1;
    }
    assert lists[..|lists|] == lists;
    CleanWhenScanned(tokens, lists, isValid);
    return false;
  }

  lemma {:induction false} NoLists(tokens: seq<string>, lists: seq<set<string>>)
    ensures AllWindows(tokens, lists[..0]) == 0 <= MAX_MNEMONIC_VALIDATIONS
  {
  }

  lemma {:induction false} OneMoreList(tokens: seq<string>, lists: seq<set<string>>, j: nat)
    requires j < |lists|
    ensures AllWindows(tokens, lists[..j + 1]) == AllWindows(tokens, lists[..j]) + Windows(tokens, lists[j], |tokens|)
  {
    assert lists[..j + 1][..j] == lists[..j];
  }

  lemma {:induction false} CleanWhenScanned(tokens: seq<string>, lists: seq<set<string>>, isValid: Checksum)
    requires AllWindows(tokens, lists) <= MAX_MNEMONIC_VALIDATIONS
    requires forall j | 0 <= j < |lists| :: ScannedTo(tokens, lists[j], isValid, |tokens|)
    ensures IsClean(tokens, lists, isValid)
  {
    hide HasLongRun, HasPhrase;
    forall j | 0 <= j < |lists|
      ensures !HasLongRun(tokens, lists[j], |tokens|) && !HasPhrase(tokens, lists[j], isValid, |tokens|) {
      assert ScannedTo(tokens, lists[j], isValid, |tokens|);
    }
  }

  // ---------------------------------------------------------------- countUnicodeCodePoints

  // The code points of a well-formed text: its units, a pair counting once.
  function CodePoints(s: Text): nat {
    if |s| == 0 then 0 else CodePoints(s[..|s| - 1]) + if IsLowSurrogate(s[|s| - 1]) then 0 else 1
  }

  method CountUnicodeCodePoints(value: Text, maximum: nat) returns (r: Option<nat>)
    ensures r.Some? <==> WellFormed(value) && CodePoints(value) <= maximum
    ensures r.Some? ==> r.value == CodePoints(value)
  {
    hide CodePoints;
    var count := 0;
    var index := 0;
    NoPoints();
    assert value[..0] == [];
    while index < |value|
      invariant 0 <= index <= |value| && count == CodePoints(value[..index]) <= maximum
      invariant forall i: nat | i < index :: PairedAt(value, i)
      invariant index < |value| && index > 0 ==> !IsHighSurrogate(value[index - 1])
      decreases |value| - index
    {
      PointStep(value, index);
      if IsHighSurrogate(value[index]) {
        if !(index + 1 < |value| && IsLowSurrogate(value[index + 1])) {
          assert !PairedAt(value, index);
          return None;
        }
        PointStep(value, index + 1);
        assert PairedAt(value, index) && PairedAt(value, index + 1);
        index := index + 1;
      } else if IsLowSurrogate(value[index]) {
        assert !PairedAt(value, index);
        return None;
      } else {
        assert PairedAt(value, index);
      }
      count := count + 1;
      index := index + 1;
      if count > maximum {
        PointsGrow(value, index);
        return None;
      }
    }
    assert value[..|value|] == value;
    return Some(count);
  }

  lemma {:induction false} NoPoints()
    ensures CodePoints([]) == 0
  {
  }

  lemma {:induction false} PointStep(s: Text, i: nat)
    requires i < |s|
    ensures CodePoints(s[..i + 1]) == CodePoints(s[..i]) + if IsLowSurrogate(s[i]) then 0 else 1
  {
    assert s[..i + 1][..i] == s[..i];
  }

  lemma {:induction false} PointsGrow(s: Text, i: nat)
    requires i <= |s|
    ensures CodePoints(s[..i]) <= CodePoints(s)
    decreases |s|
  {
    if i < |s| {
      PointsGrow(s[..|s| - 1], i);
      assert s[..|s| - 1][..i] == s[..i];
    } else {
      assert s[..i] == s;
    }
  }

  // ---------------------------------------------------------------- overlapping windows

  const WALLET_SCAN_WINDOW := 32768
  const WALLET_SCAN_STEP := 16384
  const WALLET_SCAN_FIELD_CARRY := 128

  function Window(value: Text, start: nat): Text {
    if start >= |value| then []
    else value[start..if start + WALLET_SCAN_WINDOW < |value| then start + WALLET_SCAN_WINDOW else |value|]
  }

  function LastUnits(s: Text, n: nat): Text { if |s| <= n then s else s[|s| - n..] }

  // What the field scan reads at the k-th window: the end of the one before, and the window.
  function FieldScan(value: Text, k: nat): Text {
    (if k == 0 then [] else LastUnits(Window(value, (k - 1) * WALLET_SCAN_STEP), WALLET_SCAN_FIELD_CARRY))
        + Window(value, k * WALLET_SCAN_STEP)
  }

  // A long text passes exactly when no window holds a secret and no two windows hold the two fields.
  method HasWalletSecret(value: Text, holdsSecret: Text -> bool, namesType: Text -> bool, holdsMaterial: Text -> bool)
    returns (found: bool)
    ensures |value| <= WALLET_SCAN_WINDOW ==> (found <==> holdsSecret(value))
    ensures |value| > WALLET_SCAN_WINDOW ==>
              (found
               <==> (exists k: nat ::
                       k * WALLET_SCAN_STEP < |value| && holdsSecret(Window(value, k * WALLET_SCAN_STEP)))
                    || ((exists k: nat :: k * WALLET_SCAN_STEP < |value| && namesType(FieldScan(value, k)))
                        && (exists k: nat :: k * WALLET_SCAN_STEP < |value| && holdsMaterial(FieldScan(value, k)))))
  {
    hide Window, LastUnits, FieldScan;
    if |value| <= WALLET_SCAN_WINDOW { return holdsSecret(value); }
    var signingKeyTypeSeen, keyMaterialSeen, carry: Text := false, false, [];
    var start := 0;
    ghost var k: nat := 0;
    while start < |value|
      invariant start == k * WALLET_SCAN_STEP
      invariant carry == if k == 0 then []
                else LastUnits(Window(value, (k - 1) * WALLET_SCAN_STEP), WALLET_SCAN_FIELD_CARRY)
      invariant forall j: nat | j < k :: !holdsSecret(Window(value, j * WALLET_SCAN_STEP))
      invariant signingKeyTypeSeen
                <==> exists j: nat :: j < k && j * WALLET_SCAN_STEP < |value| && namesType(FieldScan(value, j))
      invariant keyMaterialSeen
                <==> exists j: nat :: j < k && j * WALLET_SCAN_STEP < |value| && holdsMaterial(FieldScan(value, j))
      invariant !(signingKeyTypeSeen && keyMaterialSeen)
      decreases |value| - start
    {
      var chunk := Window(value, start);
      if holdsSecret(chunk) { return true; }
      var fieldScan := carry + chunk;
      FieldScanIs(value, k, carry, chunk);
      signingKeyTypeSeen := signingKeyTypeSeen || namesType(fieldScan);
      keyMaterialSeen := keyMaterialSeen || holdsMaterial(fieldScan);
      if signingKeyTypeSeen && keyMaterialSeen { return true; }
      carry := LastUnits(chunk, WALLET_SCAN_FIELD_CARRY);
      start := start + WALLET_SCAN_STEP;
      k := k + 1;
    }
    return false;
  }

  lemma {:induction false} FieldScanIs(value: Text, k: nat, carry: Text, chunk: Text)
    requires chunk == Window(value, k * WALLET_SCAN_STEP)
    requires carry == if k == 0 then []
             else LastUnits(Window(value, (k - 1) * WALLET_SCAN_STEP), WALLET_SCAN_FIELD_CARRY)
    ensures FieldScan(value, k) == carry + chunk
  {
  }

  // Every stretch of up to half a window lies inside one of the windows scanned.
  lemma {:induction false} StretchesLieInWindows(value: Text, from: nat, to: nat)
    requires from < to <= |value| && to - from <= WALLET_SCAN_STEP + 1
    ensures var start := (from / WALLET_SCAN_STEP) * WALLET_SCAN_STEP;
            && start <= from && start < |value| && to - start <= |Window(value, start)|
            && Window(value, start)[from - start..to - start] == value[from..to]
  {
    var start := (from / WALLET_SCAN_STEP) * WALLET_SCAN_STEP;
    var window := Window(value, start);
    assert forall i | from <= i < to :: window[i - start] == value[i];
  }
}
