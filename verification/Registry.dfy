/**
 * A snapshot of what the program reads from Django's app registry: installed apps,
 * their models, and each model's fields as `_meta.get_fields()` reports them.
 */
module Registry {

  /** One entry of `_meta.get_fields()`: its name, its class name and two reflection flags. */
  datatype Field = Field(name: string, className: string, autoCreated: bool, concrete: bool)

  /** A model class: its `__name__` and its fields in `get_fields()` order. */
  datatype ModelDesc = ModelDesc(name: string, fields: seq<Field>)

  /** An `AppConfig`: dotted module name, app label, filesystem path and `get_models()` in order. */
  datatype App = App(name: string, appLabel: string, path: string, models: seq<ModelDesc>)
}
