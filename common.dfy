/** Values shared by the components: optional values, the outcome of an awaited
    call into the hosted model, a local-storage slot, form errors and the
    three-way result panel that several components render. */
module Common {

  /** A value that may be `null` in the source. */
  datatype Option<T> = None | Some(value: T)

  /** How an awaited server call ended: it resolved with a value or it threw. */
  datatype Outcome<T> = Resolved(value: T) | Rejected

  /** What `JSON.parse` makes of a local-storage entry: the record it encodes,
      or an exception (`Corrupt`). */
  datatype Stored<T> = Parsed(value: T) | Corrupt

  /** One message a zod schema attaches to one field of a form. */
  datatype FieldError = FieldError(field: string, message: string)

  /** JavaScript truthiness of a `string | null`: `null` and `""` are falsy. */
  predicate Truthy(s: Option<string>) {
    s.Some? && s.value != ""
  }

  /** The three mutually exclusive blocks of a result area: a spinner while
      loading, a placeholder when idle without a result, the result itself. */
  datatype Panel = Spinner | Placeholder | Content

  /** The panels whose guards hold, each guard evaluated on its own as the JSX
      does (`isLoading && …`, `!isLoading && !data && …`, `!isLoading && data && …`). */
  function ShownPanels(isLoading: bool, hasContent: bool): (r: set<Panel>)
    ensures |r| == 1
    ensures Spinner in r <==> isLoading
    ensures Placeholder in r <==> !isLoading && !hasContent
    ensures Content in r <==> !isLoading && hasContent
  {
    var spinner: set<Panel> := if isLoading then {Spinner} else {};
    var placeholder: set<Panel> := if !isLoading && !hasContent then {Placeholder} else {};
    var content: set<Panel> := if !isLoading && hasContent then {Content} else {};
    spinner + placeholder + content
  }
}
