/**
 * AddIndexStrategy: the duplicate form field name strategy that renames the
 * second of two equally named fields to the first name, a separator and an
 * index counted per normalised name.
 */
module AddIndexStrategy {
  import opened Wrappers
  import opened Numerals

  const DEFAULT_SEPARATOR := "_"

  /** IllegalArgumentException(SEPARATOR_SHOULD_BE_A_VALID_VALUE). */
  datatype StrategyError = SeparatorShouldBeAValidValue

  /** The constructor accepts any non-null separator that does not contain a dot. */
  predicate ValidSeparator(separator: Option<string>) {
    separator.Some? && '.' !in separator.value
  }

  /** The regular expression separator + "[0-9]+$" matches name from position i up to its end. */
  predicate IndexSuffixAt(name: string, separator: string, i: nat) {
    && i + |separator| <= |name|
    && name[i..i + |separator|] == separator
    && AllDigits(name[i + |separator|..])
  }

  function NormalizeFrom(name: string, separator: string, i: nat): (r: string)
    requires i <= |name|
    ensures i <= |r| <= |name| && r == name[..|r|]
    ensures |r| < |name| ==> IndexSuffixAt(name, separator, |r|)
    ensures forall j :: i <= j < |r| ==> !IndexSuffixAt(name, separator, j)
    decreases |name| - i
  {
    if IndexSuffixAt(name, separator, i) then name[..i]
    else if i == |name| then name
    else NormalizeFrom(name, separator, i + 1)
  }

  /**
   * name.replaceAll(separator + "[0-9]+$", ""): the leftmost match reaching
   * the end of the name is cut off, once; a name without a match is kept.
   */
  function Normalize(name: string, separator: string): (r: string)
    ensures |r| <= |name| && r == name[..|r|]
    ensures |r| < |name| ==> IndexSuffixAt(name, separator, |r|)
    ensures forall j :: 0 <= j < |r| ==> !IndexSuffixAt(name, separator, j)
  {
    NormalizeFrom(name, separator, 0)
  }

  /** The new name of the second field. */
  function IndexedName(firstName: string, separator: string, index: nat): string {
    firstName + separator + Decimal(index)
  }

  /**
   * With a separator that ends in a non-digit (the default "_" does),
   * normalising a name made of a base, the separator and digits gives back
   * the base: a field renamed by this strategy normalises to the first
   * field's name.
   */
  lemma NormalizeStripsIndex(base: string, separator: string, digits: string)
    requires |separator| > 0 && !IsDigit(separator[|separator| - 1])
    requires AllDigits(digits)
    ensures Normalize(base + separator + digits, separator) == base
  {
    var name := base + separator + digits;
    var last := |base| + |separator| - 1;
    assert name[last] == separator[|separator| - 1];
    assert name[|base|..|base| + |separator|] == separator;
    assert name[|base| + |separator|..] == digits;
    assert IndexSuffixAt(name, separator, |base|);
    assert forall j :: 0 <= j < |base| ==> !IndexSuffixAt(name, separator, j);
    var r := Normalize(name, separator);
    assert |r| == |base|;
  }

  lemma IndexedNameNormalizes(firstName: string, separator: string, index: nat)
    requires |separator| > 0 && !IsDigit(separator[|separator| - 1])
    ensures Normalize(IndexedName(firstName, separator, index), separator) == firstName
  {
    DecimalIsNumeral(index);
    NormalizeStripsIndex(firstName, separator, Decimal(index));
  }

  /** A name in which the separator's first character never occurs is its own normal form. */
  lemma NormalizeKeeps(name: string, separator: string)
    requires |separator| > 0 && separator[0] !in name
    ensures Normalize(name, separator) == name
  {
  }

  /** So "name" and "name_7" share a counter, and only one suffix is removed from "a_1_2". */
  lemma NormalizeExamples()
    ensures Normalize("name", "_") == "name"
    ensures Normalize("name_7", "_") == "name"
    ensures Normalize("a_1_2", "_") == "a_1"
  {
    NormalizeKeeps("name", "_");
    assert "name" + "_" + "7" == "name_7";
    NormalizeStripsIndex("name", "_", "7");
    assert "a_1" + "_" + "2" == "a_1_2";
    NormalizeStripsIndex("a_1", "_", "2");
  }

  /** How many of the requested names normalise to key: the reference for the counters. */
  function Requests(history: seq<string>, separator: string, key: string): nat
    decreases |history|
  {
    if |history| == 0 then 0
    else Requests(history[..|history| - 1], separator, key)
         + (if Normalize(history[|history| - 1], separator) == key then 1 else 0)
  }

  lemma {:induction false} RequestsPositive(history: seq<string>, separator: string, key: string)
    requires Requests(history, separator, key) > 0
    ensures exists i :: 0 <= i < |history| && Normalize(history[i], separator) == key
    decreases |history|
  {
    var h := history[..|history| - 1];
    if Normalize(history[|history| - 1], separator) != key {
      RequestsPositive(h, separator, key);
      var i :| 0 <= i < |h| && Normalize(h[i], separator) == key;
      assert history[i] == h[i];
    }
  }

  /** A field of a form; only its name matters here, and it may be absent. */
  class FormField {
    var fieldName: Option<string>

    constructor (name: Option<string>)
      ensures fieldName == name
    {
      fieldName := name;
    }
  }

  class AddIndexStrategy {
    const separator: string
    /** The last index handed out per normalised name. */
    var countMap: map<string, nat>
    /** Every name passed to GetNextIndex, in order. */
    ghost var requested: seq<string>

    /** Each counter is the number of requests so far for its key, and every requested key has one. */
    ghost predicate Valid()
      reads this
    {
      && '.' !in separator
      && (forall k :: k in countMap ==> countMap[k] == Requests(requested, separator, k) >= 1)
      && (forall i :: 0 <= i < |requested| ==> Normalize(requested[i], separator) in countMap)
    }

    /** The part of the constructor past the separator check. */
    constructor WithSeparator(separator: string)
      requires '.' !in separator
      ensures Valid()
      ensures this.separator == separator && countMap == map[] && requested == []
    {
      this.separator := separator;
      countMap := map[];
      requested := [];
    }

    /** new AddIndexStrategy(separator): a null separator or one with a dot is refused. */
    static method Create(separator: Option<string>) returns (r: Result<AddIndexStrategy, StrategyError>)
      ensures !ValidSeparator(separator) <==> r == Failure(SeparatorShouldBeAValidValue)
      ensures r.Success? ==> && fresh(r.value) && r.value.Valid()
                             && r.value.separator == separator.value
                             && r.value.countMap == map[] && r.value.requested == []
    {
      if separator.None? || '.' in separator.value {
        return Failure(SeparatorShouldBeAValidValue);
      }
      var s := new AddIndexStrategy.WithSeparator(separator.value);
      return Success(s);
    }

    /** new AddIndexStrategy(): the default separator "_". */
    static method CreateDefault() returns (s: AddIndexStrategy)
      ensures fresh(s) && s.Valid()
      ensures s.separator == DEFAULT_SEPARATOR && s.countMap == map[] && s.requested == []
    {
      s := new AddIndexStrategy.WithSeparator(DEFAULT_SEPARATOR);
    }

    /**
     * getNextIndex: bump the counter of the normalised name and return it.
     * The n-th request for a normalised name returns n; no other counter moves.
     */
    method GetNextIndex(name: string) returns (n: nat)
      requires Valid()
      modifies this
      ensures Valid()
      ensures requested == old(requested) + [name]
      ensures n == Requests(requested, separator, Normalize(name, separator))
      ensures n == 1 <==> Normalize(name, separator) !in old(countMap)
      ensures Normalize(name, separator) in old(countMap) ==> n == old(countMap)[Normalize(name, separator)] + 1
      ensures countMap == old(countMap)[Normalize(name, separator) := n]
      ensures forall k :: k != Normalize(name, separator) ==>
                (k in countMap <==> k in old(countMap)) && (k in countMap ==> countMap[k] == old(countMap)[k])
    {
      var normalizedName := Normalize(name, separator);
      var count: nat;
      if normalizedName in countMap {
        count := countMap[normalizedName];
      } else {
        count := 0;
        if Requests(requested, separator, normalizedName) > 0 {
          RequestsPositive(requested, separator, normalizedName);
        }
      }
      count := count + 1;
      countMap := countMap[normalizedName := count];
      ghost var before := requested;
      requested := requested + [name];
      assert requested[..|requested| - 1] == before;
      forall k | k in countMap ensures countMap[k] == Requests(requested, separator, k) >= 1 {
      }
      n := count;
    }

    /**
     * execute: false when a field is missing; true without renaming when a
     * field has no name; otherwise the second field is renamed to the first
     * field's own (not normalised) name, the separator and the next index.
     */
    method Execute(firstField: FormField?, secondField: FormField?, throwExceptionOnError: bool) returns (b: bool)
      requires Valid()
      modifies this, secondField
      ensures Valid()
      ensures firstField == null || secondField == null ==>
                !b && countMap == old(countMap) && requested == old(requested)
                && (secondField != null ==> secondField.fieldName == old(secondField.fieldName))
      ensures firstField != null && secondField != null &&
              (old(firstField.fieldName).None? || old(secondField.fieldName).None?) ==>
                b && countMap == old(countMap) && requested == old(requested)
                && secondField.fieldName == old(secondField.fieldName)
      ensures firstField != null && secondField != null &&
              old(firstField.fieldName).Some? && old(secondField.fieldName).Some? ==>
                var original := old(firstField.fieldName).value;
                var key := Normalize(original, separator);
                var index := Requests(requested, separator, key);
                && b
                && requested == old(requested) + [original]
                && countMap == old(countMap)[key := index]
                && secondField.fieldName == Some(IndexedName(original, separator, index))
                && (firstField != secondField ==> firstField.fieldName == old(firstField.fieldName))
    {
      if firstField == null || secondField == null {
        return false;
      }
      if firstField.fieldName.None? || secondField.fieldName.None? {
        return true;
      }
      var originalFieldName := firstField.fieldName.value;
      var index := GetNextIndex(originalFieldName);
      secondField.fieldName := Some(IndexedName(originalFieldName, separator, index));
      return true;
    }
  }
}
