# tall-forms field descriptor, in Dafny

A model of the core of the tall-forms package for Laravel Livewire: the form-field
descriptor `BaseField` and the `below` view include that decides what is shown under a
field.

- `php.dfy` (module `Php`): PHP's nullable values (`Option`), the `mixed` values a field
  holds as rules and default (`Value`), and the truthiness an `@if` gives a nullable
  string (`Truthy`: null, `""` and `"0"` are false).
- `str.dfy` (module `Str`): the string helpers the descriptor calls, defined concretely:
  PHP's `trim` (`TrimStart`, `TrimEnd`, `Trim`) and `strpos` (`StrPos`), Laravel's `filled`
  (`Filled`) and `Str::replaceFirst` (`ReplaceFirst`).
- `base_field.dfy` (module `Fields`): the class `BaseField` with its fields, its
  constructor, the bound factory `Make`, the headless factory `Blade`, and the fluent
  setters `Rules`, `Default`, `Required`, `RealtimeValidationOff` and `SetHtmlId`, each of
  which changes its own field in place and returns the same object. `State()` reads the
  whole configuration as a `Snapshot` value; `Initial` is the configuration a fresh
  descriptor has. `BaseField` is abstract in PHP and built with `new static`; the model
  has one concrete class.
- `below.dfy` (module `Below`): the include as a pure function `Render` from the
  descriptor's display state and the two error signals to the ordered blocks inside the
  always-present `below-wrapper`.

`Str::lower`, `Str::snake` and `md5` are library calls whose code is not part of this
model. They are passed in as the fields of a `Lib` value of total functions, so the model
assumes nothing of them beyond being functions (hence deterministic). The validator's
error bag enters `Render` as two nullable strings, one for the key and one for `key.*`:
null when the bag's `has` is false for it (no message, or an empty first message, so
`@error` renders nothing), otherwise the first message.

What the code does, as modelled:
- An explicit key is used whenever it is not null: PHP's `??` falls back only on `null`, so
  the empty key `""` gives the name `""` and the key `form_data.`; it is not replaced by
  the label.
- `blade` strips only the first `form_data.` from the key. A headless field whose explicit
  key itself starts with `form_data.` (say `form_data.email`) therefore keeps a key that
  starts with the namespace (`HeadlessKeyMayKeepNamespace`).
- `blade`'s default id hashes the instance id with the key before it is stripped, which is
  the id `setHtmlId` gives a bound field of the same label and key. `setHtmlId` called on a
  headless field hashes the stripped key instead.

## Model

| member | source | states |
|---|---|---|
| Fields.BaseField.constructor | src/BaseField.php:18-47 | a new descriptor has the label, the name `key ?? snake(lower(label))`, the key `form_data.` + name, and every declared default: empty id, type `input`, rules `nullable`, null default, not required, realtime validation on, allowed in repeaters and key-value fields, not ignored, a dynamic component |
| Fields.BoundIdentity | src/BaseField.php:40-41 | with a key `K`, even `""`, the name is `K` and the key `form_data.K`; without one the name is the label in lower snake case; the key always starts with `form_data.` followed by the name |
| Fields.BaseField.Make | src/BaseField.php:61-64 | `make` returns a fresh descriptor in exactly the constructor's initial configuration |
| Fields.BaseField.Blade | src/BaseField.php:73-80 | `blade` returns a fresh descriptor whose configuration is `Headless` of its arguments: the bound descriptor with the id set from the still-namespaced key, then the key stripped of its first `form_data.`, then the name replaced; so the result is determined by the label, key, instance id, name and id |
| Fields.HeadlessIdentity | src/BaseField.php:75-78 | the headless key is `K`, or the derived name when there is no key; the id is the explicit id when it is filled, otherwise `id` + md5(instance id + `form_data.` + key part), which is the id `setHtmlId` gives the bound descriptor; the name is the explicit name when filled, otherwise the derived name; every other field keeps its bound default |
| Fields.StripNamespace | src/BaseField.php:75-77 | removing the first `form_data.` from a bound key gives back exactly `key ?? name` |
| Fields.HeadlessKeyMayKeepNamespace | src/BaseField.php:75-77 | for every explicit key that starts with `form_data.`, the headless key still starts with `form_data.`: only the first occurrence of the namespace is removed |
| Fields.BaseField.Rules | src/BaseField.php:87-91 | replaces the rules, changes no other field, returns the same object |
| Fields.BaseField.Default | src/BaseField.php:93-97 | replaces the default value, changes no other field, returns the same object |
| Fields.BaseField.Required | src/BaseField.php:99-103 | sets `required`, changes no other field, returns the same object; on a required field it changes nothing (idempotent) |
| Fields.BaseField.RealtimeValidationOff | src/BaseField.php:119-123 | clears `realtimeValidationOn`, changes no other field, returns the same object; idempotent |
| Fields.BaseField.SetHtmlId | src/BaseField.php:131-137 | the id becomes `id` + md5(instance id + current key), no other field changes, returns the same object |
| Str.FilledIsTrimNonEmpty | src/BaseField.php:76-78 | `filled(s)`, defined as "some character is not whitespace", holds exactly when `trim(s)` is not empty |
| Str.TrimStart | src/BaseField.php:76-78 | the result is a suffix of the input, its first character is not a trim character, and every removed character is one |
| Str.TrimEnd | src/BaseField.php:76-78 | the result is a prefix of the input, its last character is not a trim character, and every removed character is one |
| Str.StrPos | src/BaseField.php:77 | the result is an index where the needle occurs with no occurrence before it, or none when the needle occurs nowhere |
| Str.ReplaceFirst | src/BaseField.php:77 | an empty search or a search that does not occur leaves the subject unchanged; otherwise the first occurrence of the search is replaced by the replacement and the text before and after it is kept, so the length changes by the difference of the two lengths |
| Str.ReplaceFirstStripsPrefix | src/BaseField.php:77 | removing the first occurrence of a non-empty prefix from prefix + s gives s |
| Below.BelowPart | resources/views/includes/below.blade.php:2-6 | holds at most one block, and holds a below-text block iff `below` is truthy, carrying the below text |
| Below.HelpPart | resources/views/includes/below.blade.php:7-13 | holds at most one block, and holds a help block iff the type is not `spatie-tags` and `help` is truthy, carrying the help text |
| Below.ErrorPart | resources/views/includes/below.blade.php:14-25 | holds a key error iff the error display is enabled and the key has an error, a wildcard error iff the display is enabled and `key.*` has one, each showing `errorMsg` when not null and otherwise the validator's message, the key's first |
| Below.Render | resources/views/includes/below.blade.php:1-26 | a block is rendered iff its condition holds, with that text: the below text iff `below` is truthy; the help text iff the type is not `spatie-tags` and `help` is truthy; a key error iff errors are shown at the default position for a type other than `file` and `spatie-tags` and the key has an error; a wildcard error likewise for `key.*`; each error shows `errorMsg` when not null, else the validator's message; blocks come in the order below, help, key error, wildcard error |
| Below.RenderIsDetermined | resources/views/includes/below.blade.php:1-26 | any ordered list holding exactly the shown blocks is the rendered list, so the conditions and the order fix the output |
| Below.OrderedUnique | resources/views/includes/below.blade.php:1-26 | two lists ordered by block kind that hold the same blocks are equal |
| Below.ErrorTruthTable | resources/views/includes/below.blade.php:14-24 | the key error appears iff the error display is enabled and the key has an error, the wildcard error independently likewise; some error appears iff the display is enabled and either has one |

## Left out

- The traits `HasLabels`, `HasAttributes`, `HasSharedProperties`, `HasDesign`, `HasViews` and `HasSlots` are not part of this model. The constructor's calls into them (`deferEntangle`, `wire`, `setAttr`) and the fields they set (`defer`, `deferString`, `wire`, the attribute bag, `help`, `below`, `errorMsg`, `defaultErrorPosition`) are therefore not on `BaseField`; `Render` takes the display fields it reads as a `View` value.
- `config()` lookups for the default binding mode and deferred entanglement: they only feed the trait calls above.
- The `overrides()` hook: it returns the object unchanged in the base class, and subclasses are not part of this model.
- `fieldToArray`: it reflects over the object's own properties into a PHP array, which has no counterpart here.
- The commented-out `__get`, `makeHtmlId`, `mergeBladeDefaults` and the `xmodel` call: inert code.
- `resources/views/fields/radio.blade.php`: markup and Livewire `@entangle` wiring.
- Rendering the markup, the validator's error bag and Livewire's two-way sync: the error bag appears only as the two error signals of `Render`.
- Excluding ignored fields from form data and validation: only the `ignored` flag exists in the modelled code.
- `Str::lower`, `Str::snake`, `md5`: parameters with no properties; hash non-collision and the exact snake-case spelling (such as `Email Address` becoming `email_address`) are not modelled.
- Floats and objects as rule or default values.
