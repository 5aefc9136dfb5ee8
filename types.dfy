/** Shared records of the report generator (types.ts) and two small wrappers. */
module Types {

  datatype Option<+T> = None | Some(value: T)

  /** The settled value of a promise the source awaits: it resolved with a value or it rejected. */
  datatype Awaited<+T> = Resolved(value: T) | Rejected

  /** A call that either produced a value or failed with a message (a thrown `Error`). */
  datatype Result<+T> = Success(value: T) | Failure(message: string)

  /** A roster entry: `Student` in types.ts. */
  datatype Student = Student(id: string, name: string)

  /** The five text fields of the form: `StudentData` in types.ts. */
  datatype StudentData = StudentData(
    studentName: string,
    powerschoolData: string,
    ixlData: string,
    behaviorData: string,
    focusArea: string)

  /** The JavaScript expression `s || fallback` on strings: only the empty string is falsy. */
  function OrElse(s: string, fallback: string): string
  {
    if s != "" then s else fallback
  }

  /** A string lookup `table[key] || fallback` on a plain object, with the object as a finite map. */
  function LookupOr(table: map<string, string>, key: string, fallback: string): (r: string)
    ensures key in table && table[key] != "" ==> r == table[key]
    ensures key in table && table[key] == "" ==> r == fallback
    ensures key !in table ==> r == fallback
    ensures fallback != "" ==> r != ""
  {
    if key in table then OrElse(table[key], fallback) else fallback
  }

  /** The strings of `parts` joined with no separator (`parts.join('')`). */
  function Concat(parts: seq<string>): string
  {
    if parts == [] then "" else parts[0] + Concat(parts[1..])
  }

  /** Joining distributes over sequence concatenation. */
  lemma {:induction false} ConcatAppend(a: seq<string>, b: seq<string>)
    ensures Concat(a + b) == Concat(a) + Concat(b)
  {
    if a == [] {
      assert a + b == b;
    } else {
      assert (a + b)[1..] == a[1..] + b;
      ConcatAppend(a[1..], b);
    }
  }
}
