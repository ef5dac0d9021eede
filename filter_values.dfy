/**
 * Filter objects exchanged between the assistant, the dashboard and the job list:
 * a sparse map from a filter key to a JSON scalar; a missing key means no constraint.
 */
module FilterValues {
  import opened Strings

  /** The JSON scalars a filter entry can hold. */
  datatype FilterValue = Str(s: string) | Bool(b: bool) | Num(n: int) | Null

  type Filters = map<string, FilterValue>

  /** JavaScript truthiness of the value. */
  predicate Truthy(v: FilterValue) {
    match v
    case Str(s) => s != ""
    case Bool(b) => b
    case Num(n) => n != 0
    case Null => false
  }

  /** `if (filters[key])`: the key is there and its value is truthy. */
  predicate Present(f: Filters, key: string) {
    key in f && Truthy(f[key])
  }

  /** How a template literal prints the value. */
  function Text(v: FilterValue): string {
    match v
    case Str(s) => s
    case Bool(b) => if b then "true" else "false"
    case Num(n) => IntToString(n)
    case Null => "null"
  }
}
