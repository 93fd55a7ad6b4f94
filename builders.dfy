/** The two accumulating objects the executor fills step by step: Guava's
    `ImmutableList.Builder<String>` for argument vectors and the
    `BufferedWriter` the Dockerfile is written through. */
module Builders {

  /** `ImmutableList.builder()`: `Add` and `AddAll` append, `items` is what
      `build()` returns. */
  class ListBuilder {
    var items: seq<string>

    constructor ()
      ensures items == []
    {
      items := [];
    }

    method Add(x: string)
      modifies this
      ensures items == old(items) + [x]
    {
      items := items + [x];
    }

    method AddAll(xs: seq<string>)
      modifies this
      ensures items == old(items) + xs
    {
      items := items + xs;
    }
  }

  /** A character writer: `text` is everything written so far. */
  class TextWriter {
    var text: string

    constructor ()
      ensures text == ""
    {
      text := "";
    }

    method Write(s: string)
      modifies this
      ensures text == old(text) + s
    {
      text := text + s;
    }
  }
}
