/** Standard output as the script uses it: text is either shown at once or, while an
    output buffer is open (`ob_start`), collected until `ob_get_clean` takes it back.
    Colours are not modelled; `out($text)` writes `text` and a newline. */
module Output {

  /** The console as a value: whether a buffer is open, what it holds, and the text
      that has reached the terminal. */
  datatype Screen = Screen(buffering: bool, buffer: string, shown: string)

  /** `printf('%s', $text)` on the console `v`: the text goes to the buffer while one is
      open, to the terminal otherwise. */
  function Written(v: Screen, text: string): Screen {
    if v.buffering then v.(buffer := v.buffer + text) else v.(shown := v.shown + text)
  }

  /** Two writes in a row are one write of both texts. */
  lemma WrittenTwice(v: Screen, t1: string, t2: string)
    ensures Written(Written(v, t1), t2) == Written(v, t1 + t2)
  {
    assert v.buffer + t1 + t2 == v.buffer + (t1 + t2);
    assert v.shown + t1 + t2 == v.shown + (t1 + t2);
  }

  /** A write followed by nothing is that write. */
  lemma WrittenThenNothing(v: Screen, t: string)
    ensures Written(v, t + "") == Written(v, t)
  {
    assert t + "" == t;
  }

  /** The console once a deployer is made: quiet mode opens an empty buffer. */
  function Opened(quiet: bool, v: Screen): Screen {
    if quiet then Screen(true, "", v.shown) else v
  }

  /** Writing `text` took the buffer `b0` and the shown text `s0` to `b1` and `s1`. */
  predicate Appended(buffering: bool, b0: string, s0: string, b1: string, s1: string, text: string) {
    Written(Screen(buffering, b0, s0), text) == Screen(buffering, b1, s1)
  }

  /** Two writes in a row append their texts one after the other. */
  lemma AppendedTwice(buffering: bool, b0: string, s0: string, b1: string, s1: string, b2: string, s2: string, t1: string, t2: string)
    requires Appended(buffering, b0, s0, b1, s1, t1) && Appended(buffering, b1, s1, b2, s2, t2)
    ensures Appended(buffering, b0, s0, b2, s2, t1 + t2)
  {
    WrittenTwice(Screen(buffering, b0, s0), t1, t2);
  }

  class Console {
    /** An output buffer is open. */
    var buffering: bool
    /** The text collected by the open buffer. */
    var buffer: string
    /** The text that has reached the terminal. */
    var shown: string

    constructor ()
      ensures !buffering && buffer == "" && shown == ""
    {
      buffering, buffer, shown := false, "", "";
    }

    /** The buffer `b0` and the shown text `s0` became what they are now by writing
        `text`: it went to the buffer while one is open, to the terminal otherwise. */
    predicate Extends(b0: string, s0: string, text: string)
      reads this
    {
      Appended(buffering, b0, s0, buffer, shown, text)
    }

    function View(): Screen
      reads this
    {
      Screen(buffering, buffer, shown)
    }

    /** `printf('%s', $text)`. */
    method Write(text: string)
      modifies this
      ensures buffering == old(buffering)
      ensures Extends(old(buffer), old(shown), text)
      ensures View() == Written(old(View()), text)
    {
      if buffering {
        buffer := buffer + text;
      } else {
        shown := shown + text;
      }
    }

    /** `ob_start()`: later output is collected instead of shown. */
    method StartBuffering()
      modifies this
      ensures buffering && buffer == "" && shown == old(shown)
    {
      buffering, buffer := true, "";
    }

    /** `ob_get_clean()`: closes the buffer and hands back what it collected; without an
        open buffer there is nothing to hand back. */
    method GetClean() returns (text: string)
      modifies this
      ensures text == (if old(buffering) then old(buffer) else "")
      ensures !buffering && buffer == "" && shown == old(shown)
    {
      text := if buffering then buffer else "";
      buffering, buffer := false, "";
    }
  }
}
