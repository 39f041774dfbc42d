/** Value types shared by every component of the engine. */
module Domain {

  datatype Option<+T> = None | Some(value: T)

  /** A computed value, or the error the source raises instead. */
  datatype Result<+T> = Ok(value: T) | Err(error: string) {
    predicate IsFailure() {
      Err?
    }

    function PropagateFailure<U>(): Result<U>
      requires Err?
    {
      Err(error)
    }

    function Extract(): T
      requires Ok?
    {
      value
    }
  }

  datatype Direction = Long | Short {
    function Sign(): real {
      if Long? then 1.0 else -1.0
    }
  }

  datatype Timeframe = M1 | M5 | M15 | M30 | H1 | H4 | D1 {
    function Seconds(): int {
      match this
      case M1 => 60
      case M5 => 300
      case M15 => 900
      case M30 => 1800
      case H1 => 3600
      case H4 => 14400
      case D1 => 86400
    }
  }

  /** Instants are microseconds since an arbitrary origin. */
  type Time = int

  const SECOND: int := 1_000_000

  function Max(x: real, y: real): real {
    if x >= y then x else y
  }

  function Min(x: real, y: real): real {
    if x <= y then x else y
  }

  function Abs(x: real): real {
    if x >= 0.0 then x else -x
  }

  /** The reasons collected so far, with one more if it applies. */
  function AddIf(reasons: seq<string>, applies: bool, reason: string): seq<string> {
    if applies then reasons + [reason] else reasons
  }

  /** The parts as one text, separated by commas. */
  function Joined(parts: seq<string>): string {
    if parts == [] then "" else if |parts| == 1 then parts[0] else parts[0] + ", " + Joined(parts[1..])
  }

  /** Upper case, for ASCII letters. */
  function Upper(text: string): string {
    seq(|text|, i requires 0 <= i < |text| =>
          if 'a' <= text[i] <= 'z' then (text[i] as int - 32) as char else text[i])
  }

  lemma Scale(x: real, y: real, k: real)
    requires x <= y && k >= 0.0
    ensures x * k <= y * k
  {
  }

  lemma ScaleStrict(x: real, y: real, k: real)
    requires x < y && k > 0.0
    ensures x * k < y * k
  {
  }
}
