/** Shared wrappers: an optional value, and the outcome of a view operation
    that either produces a value or fails the way the Python code fails. */
module Base {

  datatype Option<+T> = None | Some(value: T)

  /** The failures of the modelled views. Each names the Python exception or
      error response it stands for. */
  datatype Error =
    | NoSuchModel(modelName: string)      // `Mod` is still None: AttributeError on `Mod._meta`
    | UnboundEpisodes(modelName: string)  // `Mod` is neither subrecord kind: `eps` is never bound
    | MalformedDate(text: string)         // strptime(text, "%d/%m/%Y") raises ValueError
    | UnknownCombine(combine: string)     // `methods[combine]` raises KeyError
    | MissingDefaultSchema                // `LIST_SCHEMAS['default']` raises KeyError
    | NoSearchTerms                       // the 400 response {'error': 'No search terms'}

  datatype Result<+T> = Ok(value: T) | Err(error: Error)

  /** The set of the elements of a list, as Python's `set(xs)`. */
  function Elems<T>(xs: seq<T>): set<T>
  {
    set x | x in xs
  }
}
