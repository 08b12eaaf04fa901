/**
 * The form-field descriptor `BaseField`: its identity (id, name, key) derived from a
 * label and an optional key in bound mode (`make`) or headless mode (`blade`), its
 * declared defaults, and its fluent setters.
 */
module Fields {
  import opened Php
  import Str

  /** The namespace under which bound fields keep their data. */
  const Namespace: string := "form_data."

  /**
   * The library calls the descriptor makes and whose definitions are not part of this
   * model: `Str::lower`, `Str::snake` and `md5`. Being arbitrary total functions, they
   * are deterministic and nothing else is assumed of them.
   */
  datatype Lib = Lib(lower: string -> string, snake: string -> string, md5: string -> string)

  /** The name derived from a label: `Str::snake(Str::lower($label))`. */
  function SnakeLower(labelText: string, lib: Lib): string
  {
    lib.snake(lib.lower(labelText))
  }

  /** `$key ?? snake(lower($label))`: an explicit key, even "", wins over the label. */
  function DerivedName(labelText: string, key: Option<string>, lib: Lib): string
  {
    key.Coalesce(SnakeLower(labelText, lib))
  }

  /** The bound data key `'form_data.' . ($key ?? $name)`. */
  function BoundKey(labelText: string, key: Option<string>, lib: Lib): string
  {
    Namespace + key.Coalesce(DerivedName(labelText, key, lib))
  }

  /** The id `setHtmlId` gives for a component instance id and a key: `'id' . md5($wireId . $key)`. */
  function HtmlId(wireId: string, key: string, lib: Lib): string
  {
    "id" + lib.md5(wireId + key)
  }

  /** The configuration a descriptor holds, as one value. */
  datatype Snapshot = Snapshot(
    id: string,
    name: string,
    key: string,
    fieldType: string,
    labelText: string,
    rules: Value,
    defaultValue: Value,
    required: bool,
    realtimeValidationOn: bool,
    allowedInRepeater: bool,
    allowedInKeyval: bool,
    ignored: bool,
    dynamicComponent: bool)

  /** A freshly constructed descriptor: the derived identity and every declared default. */
  function Initial(labelText: string, key: Option<string>, lib: Lib): Snapshot
  {
    Snapshot(
      id := "",
      name := DerivedName(labelText, key, lib),
      key := BoundKey(labelText, key, lib),
      fieldType := "input",
      labelText := labelText,
      rules := String("nullable"),
      defaultValue := Null,
      required := false,
      realtimeValidationOn := true,
      allowedInRepeater := true,
      allowedInKeyval := true,
      ignored := false,
      dynamicComponent := true)
  }

  /**
   * Bound identity: an explicit key `k` (the empty one included) becomes the name and
   * `form_data.k` the key; without one the name is the label in lower snake case; the
   * key is always the namespaced name.
   */
  lemma BoundIdentity(labelText: string, key: Option<string>, lib: Lib)
    ensures key.Some? ==> Initial(labelText, key, lib).name == key.value
    ensures key.Some? ==> Initial(labelText, key, lib).key == Namespace + key.value
    ensures key.None? ==> Initial(labelText, key, lib).name == SnakeLower(labelText, lib)
    ensures Initial(labelText, key, lib).key == Namespace + Initial(labelText, key, lib).name
    ensures |Initial(labelText, key, lib).key| >= |Namespace|
    ensures Initial(labelText, key, lib).key[..|Namespace|] == Namespace
  {
  }

  /** Stripping the first `form_data.` from a bound key gives back the key part, `$key ?? $name`. */
  lemma {:induction false} StripNamespace(labelText: string, key: Option<string>, lib: Lib)
    ensures Str.ReplaceFirst(Namespace, "", BoundKey(labelText, key, lib)) == DerivedName(labelText, key, lib)
  {
    Str.ReplaceFirstStripsPrefix(Namespace, DerivedName(labelText, key, lib));
  }

  /**
   * The configuration `blade` produces from the bound descriptor: the id from the explicit
   * id or else the still-namespaced key, the key without its first `form_data.`, and the
   * explicit name if filled.
   */
  function Headless(labelText: string, key: Option<string>, wireId: string, name: string, id: string, lib: Lib): Snapshot
  {
    var bound := Initial(labelText, key, lib);
    bound.(
      id := if Str.Filled(id) then id else HtmlId(wireId, bound.key, lib),
      key := Str.ReplaceFirst(Namespace, "", bound.key),
      name := if Str.Filled(name) then name else bound.name)
  }

  /**
   * A headless descriptor's key is the explicit key or else the derived name; its id is
   * the explicit id when filled, else the id `setHtmlId` gives the bound descriptor of the
   * same label and key; its name is the explicit name when filled, else the derived one;
   * every other field is as in a bound descriptor.
   */
  lemma HeadlessIdentity(labelText: string, key: Option<string>, wireId: string, name: string, id: string, lib: Lib)
    ensures var h := Headless(labelText, key, wireId, name, id, lib);
      && h.key == (if key.Some? then key.value else SnakeLower(labelText, lib))
      && (Str.Filled(id) ==> h.id == id)
      && (!Str.Filled(id) ==> h.id == HtmlId(wireId, Namespace + h.key, lib))
      && (!Str.Filled(id) ==> h.id == HtmlId(wireId, Initial(labelText, key, lib).key, lib))
      && h.name == (if Str.Filled(name) then name else DerivedName(labelText, key, lib))
      && h == Initial(labelText, key, lib).(id := h.id, key := h.key, name := h.name)
  {
    StripNamespace(labelText, key, lib);
  }

  /**
   * Only the first `form_data.` is stripped: a headless descriptor whose explicit key
   * itself starts with the namespace keeps a key that starts with the namespace.
   */
  lemma HeadlessKeyMayKeepNamespace(labelText: string, k: string, wireId: string, name: string, id: string, lib: Lib)
    requires |k| >= |Namespace| && k[..|Namespace|] == Namespace
    ensures var h := Headless(labelText, Some(k), wireId, name, id, lib);
      |h.key| >= |Namespace| && h.key[..|Namespace|] == Namespace
  {
    HeadlessIdentity(labelText, Some(k), wireId, name, id, lib);
  }

  class BaseField {
    var id: string
    var name: string
    var key: string
    var fieldType: string
    var labelText: string
    var rules: Value
    var defaultValue: Value
    var required: bool
    var realtimeValidationOn: bool
    var allowedInRepeater: bool
    var allowedInKeyval: bool
    var ignored: bool
    var dynamicComponent: bool

    /** The descriptor's current configuration. */
    function State(): Snapshot
      reads this
    {
      Snapshot(id, name, key, fieldType, labelText, rules, defaultValue, required,
               realtimeValidationOn, allowedInRepeater, allowedInKeyval, ignored, dynamicComponent)
    }

    /** `new static($label, $key)`: derives name and key, every other field at its default. */
    constructor (labelText: string, key: Option<string>, lib: Lib)
      ensures State() == Initial(labelText, key, lib)
      ensures this.key == Namespace + this.name
    {
      id := "";
      fieldType := "input";
      rules := String("nullable");
      defaultValue := Null;
      required := false;
      realtimeValidationOn := true;
      allowedInRepeater := true;
      allowedInKeyval := true;
      ignored := false;
      dynamicComponent := true;
      this.labelText := labelText;
      var derived := key.Coalesce(SnakeLower(labelText, lib));
      name := derived;
      this.key := Namespace + key.Coalesce(derived);
    }

    /** `make($label, $key)`: a bound descriptor. */
    static method Make(labelText: string, key: Option<string>, lib: Lib) returns (f: BaseField)
      ensures fresh(f)
      ensures f.State() == Initial(labelText, key, lib)
    {
      f := new BaseField(labelText, key, lib);
    }

    /** `blade(...)`: a headless descriptor (see `HeadlessIdentity` for what it holds). */
    static method Blade(labelText: string, key: Option<string>, wireId: string, name: string, id: string, lib: Lib)
      returns (f: BaseField)
      ensures fresh(f)
      ensures f.State() == Headless(labelText, key, wireId, name, id, lib)
    {
      f := new BaseField(labelText, key, lib);
      f.id := if Str.Filled(id) then id else HtmlId(wireId, f.key, lib);
      f.key := Str.ReplaceFirst(Namespace, "", f.key);
      f.name := if Str.Filled(name) then name else f.name;
    }

    /** `rules($rules)`: replaces the validation rules, nothing else. */
    method Rules(rules: Value) returns (self: BaseField)
      modifies this
      ensures self == this
      ensures State() == old(State()).(rules := rules)
    {
      this.rules := rules;
      self := this;
    }

    /** `default($default)`: replaces the default value, nothing else. */
    method Default(defaultValue: Value) returns (self: BaseField)
      modifies this
      ensures self == this
      ensures State() == old(State()).(defaultValue := defaultValue)
    {
      this.defaultValue := defaultValue;
      self := this;
    }

    /** `required()`: marks the field required, nothing else; applying it twice is applying it once. */
    method Required() returns (self: BaseField)
      modifies this
      ensures self == this && required
      ensures State() == old(State()).(required := true)
      ensures old(required) ==> State() == old(State())
    {
      required := true;
      self := this;
    }

    /** `realtimeValidationOff()`: turns realtime validation off, nothing else; idempotent. */
    method RealtimeValidationOff() returns (self: BaseField)
      modifies this
      ensures self == this && !realtimeValidationOn
      ensures State() == old(State()).(realtimeValidationOn := false)
      ensures !old(realtimeValidationOn) ==> State() == old(State())
    {
      realtimeValidationOn := false;
      self := this;
    }

    /** `setHtmlId($wireInstanceID)`: the id hashes the instance id with the current key. */
    method SetHtmlId(wireInstanceId: string, lib: Lib) returns (self: BaseField)
      modifies this
      ensures self == this
      ensures id == HtmlId(wireInstanceId, key, lib)
      ensures State() == old(State()).(id := HtmlId(wireInstanceId, old(key), lib))
    {
      id := HtmlId(wireInstanceId, key, lib);
      self := this;
    }
  }
}
