/**
 * The expression evaluator's result item: a debugger value paired with its
 * expansion, together with the item's name, its full name (the name followed by
 * the format specifiers) and the flags shown to the debugger.
 *
 * The debugger's own objects are opaque here: a value is represented by the
 * answers it gives to the queries the item makes of it, and a type, an
 * expansion or an inspection context by an identifier.
 */
module EvalResult {

  datatype Option<T> = None | Some(value: T)

  /** The kinds of result item. */
  datatype ExpansionKind =
    | Default | Error | NonPublicMembers | PointerDereference
    | RawView | ResultsView | StaticMembers | TypeVariables

  /** The result flags the item itself deals with; every other flag is an `Other` bit. */
  datatype Flag = Expandable | Boolean | BooleanTrue | RawString | Other(bit: nat)

  /** A flags word, as the set of its bits. */
  type Flags = set<Flag>

  /** The empty flags word. */
  const NoFlags: Flags := {}

  datatype Category = OtherCategory | Data | Method | Property | Class | Interface

  /** A type of the debuggee, as an identifier. */
  datatype TypeRef = TypeRef(id: nat)

  /** The children of an item, as an identifier. */
  datatype Expansion = Expansion(id: nat)

  /**
   * A debugger value, through the queries the item makes of it: its own result
   * flags, whether its type is `bool`, whether its host object is `true`, whether
   * it is an error value, and whether it has an underlying string in the
   * inspection context the item is built in.
   */
  datatype ClrValue = ClrValue(
    evalFlags: Flags,
    isBoolean: bool,
    hostObjectIsTrue: bool,
    isError: bool,
    hasUnderlyingString: bool)

  /** A full name followed by each of `specifiers`, each one preceded by ", ". */
  function WithSpecifiers(base: string, specifiers: seq<string>): string
    decreases |specifiers|
  {
    if specifiers == [] then base
    else WithSpecifiers(base, specifiers[..|specifiers| - 1]) + ", " + specifiers[|specifiers| - 1]
  }

  /** The text appended after the base name: ", s" for each specifier `s`, in order. */
  function Suffix(specifiers: seq<string>): string
    decreases |specifiers|
  {
    if specifiers == [] then "" else ", " + specifiers[0] + Suffix(specifiers[1..])
  }

  /** The full name is the base name followed by the suffix of the specifiers. */
  lemma {:induction false} WithSpecifiersIsSuffixed(base: string, specifiers: seq<string>)
    ensures WithSpecifiers(base, specifiers) == base + Suffix(specifiers)
    decreases |specifiers|
  {
    if specifiers != [] {
      var init := specifiers[..|specifiers| - 1];
      var last := specifiers[|specifiers| - 1];
      WithSpecifiersIsSuffixed(base, init);
      SuffixSnoc(init, last);
      assert specifiers == init + [last];
    }
  }

  lemma {:induction false} SuffixSnoc(specifiers: seq<string>, last: string)
    ensures Suffix(specifiers + [last]) == Suffix(specifiers) + ", " + last
    decreases |specifiers|
  {
    if specifiers == [] {
      assert [] + [last] == [last];
    } else {
      assert (specifiers + [last])[1..] == specifiers[1..] + [last];
      SuffixSnoc(specifiers[1..], last);
    }
  }

  /** With no format specifiers the full name is the base name; otherwise the base name is a proper prefix. */
  lemma BaseIsPrefix(base: string, specifiers: seq<string>)
    ensures specifiers == [] ==> WithSpecifiers(base, specifiers) == base
    ensures base <= WithSpecifiers(base, specifiers)
    ensures specifiers != [] ==> |WithSpecifiers(base, specifiers)| >= |base| + 2 + |specifiers[0]|
  {
    WithSpecifiersIsSuffixed(base, specifiers);
    assert (base + Suffix(specifiers))[..|base|] == base;
  }

  /** Appending the specifiers in two runs gives the same name as appending them all at once. */
  lemma {:induction false} WithSpecifiersAppend(base: string, first: seq<string>, second: seq<string>)
    ensures WithSpecifiers(base, first + second) == WithSpecifiers(WithSpecifiers(base, first), second)
    decreases |second|
  {
    if second == [] {
      assert first + second == first;
    } else {
      var init := second[..|second| - 1];
      assert first + second == (first + init) + [second[|second| - 1]];
      assert (first + second)[..|first + second| - 1] == first + init;
      WithSpecifiersAppend(base, first, init);
    }
  }

  /** The flags a value contributes to the item that shows it. */
  function ValueFlags(value: Option<ClrValue>): (r: Flags)
    ensures value.None? ==> r == NoFlags
    ensures value.Some? ==> value.value.evalFlags <= r
    ensures value.Some? ==> r - value.value.evalFlags <= {Boolean, BooleanTrue, RawString}
  {
    match value
    case None => NoFlags
    case Some(v) =>
      v.evalFlags
        + (if v.isBoolean then {Boolean} + (if v.hostObjectIsTrue then {BooleanTrue} else {}) else {})
        + (if !v.isError && v.hasUnderlyingString then {RawString} else {})
  }

  /**
   * The item's own contribution to each of its three flags: `Boolean` exactly for a
   * value of type `bool`, `BooleanTrue` exactly when that value is `true`, and
   * `RawString` exactly for a value that is no error and has an underlying string;
   * a flag the value reports itself is kept in any case.
   */
  lemma ValueFlagsBits(value: Option<ClrValue>)
    requires value.Some?
    ensures Boolean in ValueFlags(value) <==> value.value.isBoolean || Boolean in value.value.evalFlags
    ensures BooleanTrue in ValueFlags(value)
      <==> (value.value.isBoolean && value.value.hostObjectIsTrue) || BooleanTrue in value.value.evalFlags
    ensures RawString in ValueFlags(value)
      <==> (!value.value.isError && value.value.hasUnderlyingString) || RawString in value.value.evalFlags
    ensures Expandable in ValueFlags(value) <==> Expandable in value.value.evalFlags
  {
  }

  /** The item never adds `BooleanTrue` without `Boolean`. */
  lemma BooleanTrueNeedsBoolean(value: Option<ClrValue>)
    requires value.Some? && BooleanTrue !in value.value.evalFlags
    ensures BooleanTrue in ValueFlags(value) ==> Boolean in ValueFlags(value)
  {
  }

  /** The flags of an item, from the caller's flags, the value and the expansion. */
  function ItemFlags(flags: Flags, value: Option<ClrValue>, expansion: Option<Expansion>): (r: Flags)
    ensures flags <= r && ValueFlags(value) <= r
    ensures r <= flags + ValueFlags(value) + {Expandable}
    ensures expansion.Some? ==> Expandable in r
    ensures expansion.None? ==> (Expandable in r <==> Expandable in flags + ValueFlags(value))
  {
    flags + ValueFlags(value) + (if expansion.None? then NoFlags else {Expandable})
  }

  class DataItem {
    const kind: ExpansionKind
    const name: string
    const typeDeclaringMember: Option<TypeRef>
    const declaredType: Option<TypeRef>
    const parent: DataItem?
    const value: Option<ClrValue>
    /** Replaces the value text shown for errors, invalid pointer dereferences and the like. */
    const displayValue: Option<string>
    const expansion: Option<Expansion>
    const childShouldParenthesize: bool
    const fullNameWithoutFormatSpecifiers: Option<string>
    const formatSpecifiers: seq<string>
    const childFullNamePrefix: Option<string>
    const category: Category
    const flags: Flags
    const editableValue: Option<string>

    /**
     * The full name: `None` when the item has no full name, and otherwise the name
     * followed by ", " and each format specifier in turn.
     */
    method FullName() returns (r: Option<string>)
      ensures r.None? <==> fullNameWithoutFormatSpecifiers.None?
      ensures r.Some? ==> r.value == WithSpecifiers(fullNameWithoutFormatSpecifiers.value, formatSpecifiers)
    {
      r := fullNameWithoutFormatSpecifiers;
      if r.Some? {
        var i := 0;
        while i < |formatSpecifiers|
          invariant 0 <= i <= |formatSpecifiers|
          invariant r == Some(WithSpecifiers(fullNameWithoutFormatSpecifiers.value, formatSpecifiers[..i]))
        {
          assert formatSpecifiers[..i + 1][..i] == formatSpecifiers[..i];
          r := Some(r.value + ", " + formatSpecifiers[i]);
          i := i + 1;
        }
        assert formatSpecifiers[..i] == formatSpecifiers;
      }
    }

    /** The item for an error: it shows `errorMessage` and has no value, expansion, full name or flags. */
    constructor Error(name: Option<string>, errorMessage: Option<string>)
      requires name.Some?
      ensures kind == ExpansionKind.Error && this.name == name.value
      ensures displayValue == errorMessage
      ensures value.None? && expansion.None? && fullNameWithoutFormatSpecifiers.None?
      ensures typeDeclaringMember.None? && declaredType.None? && parent == null
      ensures formatSpecifiers == [] && childFullNamePrefix.None? && editableValue.None?
      ensures !childShouldParenthesize && category == OtherCategory
      ensures flags == NoFlags
    {
      kind := ExpansionKind.Error;
      this.name := name.value;
      typeDeclaringMember := None;
      declaredType := None;
      parent := null;
      value := None;
      displayValue := errorMessage;
      childShouldParenthesize := false;
      fullNameWithoutFormatSpecifiers := None;
      childFullNamePrefix := None;
      formatSpecifiers := [];
      category := OtherCategory;
      editableValue := None;
      var valueFlags := GetFlags(None);
      flags := NoFlags + valueFlags + NoFlags;
      expansion := None;
    }

    /**
     * The item for `value`. The name and the format specifiers must be present, and
     * the caller's flags must not claim `Expandable`: the item sets that flag itself
     * exactly when it has an expansion.
     */
    constructor (
      kind: ExpansionKind,
      name: Option<string>,
      typeDeclaringMember: Option<TypeRef>,
      declaredType: Option<TypeRef>,
      parent: DataItem?,
      value: Option<ClrValue>,
      displayValue: Option<string>,
      expansion: Option<Expansion>,
      childShouldParenthesize: bool,
      fullName: Option<string>,
      childFullNamePrefixOpt: Option<string>,
      formatSpecifiers: Option<seq<string>>,
      category: Category,
      flags: Flags,
      editableValue: Option<string>)
      requires name.Some?
      requires formatSpecifiers.Some?
      requires Expandable !in flags
      ensures this.kind == kind && this.name == name.value
      ensures this.typeDeclaringMember == typeDeclaringMember && this.declaredType == declaredType
      ensures this.parent == parent && this.value == value && this.displayValue == displayValue
      ensures this.expansion == expansion && this.childShouldParenthesize == childShouldParenthesize
      ensures this.fullNameWithoutFormatSpecifiers == fullName
      ensures this.childFullNamePrefix == childFullNamePrefixOpt
      ensures this.formatSpecifiers == formatSpecifiers.value
      ensures this.category == category && this.editableValue == editableValue
      ensures this.flags == ItemFlags(flags, value, expansion)
    {
      this.kind := kind;
      this.name := name.value;
      this.typeDeclaringMember := typeDeclaringMember;
      this.declaredType := declaredType;
      this.parent := parent;
      this.value := value;
      this.displayValue := displayValue;
      this.childShouldParenthesize := childShouldParenthesize;
      this.fullNameWithoutFormatSpecifiers := fullName;
      this.childFullNamePrefix := childFullNamePrefixOpt;
      this.formatSpecifiers := formatSpecifiers.value;
      this.category := category;
      this.editableValue := editableValue;
      var valueFlags := GetFlags(value);
      this.flags := flags + valueFlags + (if expansion.None? then NoFlags else {Expandable});
      this.expansion := expansion;
    }

    /** The flags the value contributes: none for a missing value, else its own flags and the three the item derives. */
    static method GetFlags(value: Option<ClrValue>) returns (r: Flags)
      ensures value.None? ==> r == NoFlags
      ensures r == ValueFlags(value)
    {
      if value.None? {
        return NoFlags;
      }
      var v := value.value;
      r := v.evalFlags;
      if v.isBoolean {
        r := r + {Boolean};
        if v.hostObjectIsTrue {
          r := r + {BooleanTrue};
        }
      }
      if !v.isError && v.hasUnderlyingString {
        r := r + {RawString};
      }
    }
  }
}
