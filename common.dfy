/** Values shared by every part of the packager: optional values, the errors
    that stop the task, and how a JavaScript property read turns into text. */
module Common {

  datatype Option<T> = None | Some(value: T)

  /** The three conditions on which the task stops instead of copying. */
  datatype Error =
    | InvalidType       // the `type` option names none of the eight extension kinds
    | MissingExtension  // the parsed manifest has no <extension> root element
    | UntaggedLanguage  // a <language> entry carries no attributes

  /** The message the task reports for each error. */
  function Message(e: Error): string
  {
    match e
    case InvalidType => "Invalid option value: type"
    case MissingExtension => "Malformed XML: <extension> missing"
    case UntaggedLanguage => "<language> tag must contain a 'tag' attribute."
  }

  /** Either a value or the error that stopped its computation; usable with `:-`. */
  datatype Result<T> = Ok(value: T) | Err(error: Error) {
    predicate IsFailure() { Err? }

    function PropagateFailure<U>(): Result<U>
      requires Err?
    {
      Err(error)
    }

    function Extract(): T
      requires Ok?
    {
      value
    }
  }

  /** A string-valued JavaScript object, such as an element's attributes. */
  type Props = map<string, string>

  /** The text a property read contributes to a string concatenation:
      its value, or "undefined" when the property is missing. */
  function Lookup<K>(props: map<K, string>, key: K): string
  {
    if key in props then props[key] else "undefined"
  }
}
