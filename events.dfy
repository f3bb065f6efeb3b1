/**
 * The XML events the reader delivers and the writer accepts. Tokenising
 * bytes into events (and serialising events back into bytes) belongs to the
 * XML library and is not part of this model: a document is the sequence of
 * events the reader returns for it.
 */
module Events {

  datatype Event =
    | Start(name: string, attributes: string)  // an opening tag
    | End(name: string)                        // a closing tag
    | Text(content: string)                    // character data, already trimmed
    | Empty(name: string, attributes: string)  // a self-closing tag
    | Comment(content: string)
    | CData(content: string)
    | Decl(content: string)                    // the XML declaration
    | PI(content: string)                      // a processing instruction
    | DocType(content: string)
    | Eof                                      // the end of the input
    | Error(position: nat)                     // a reader error, at this buffer position

  /** The kinds of event the splitter copies into a chunk while inside an item. */
  predicate Copied(e: Event)
  {
    e.Start? || e.End? || e.Text?
  }

  /** The events of `es` that an item copies out, in order. */
  function Forwarded(es: seq<Event>): seq<Event>
  {
    if es == [] then []
    else (if Copied(es[0]) then [es[0]] else []) + Forwarded(es[1..])
  }

  /** Exactly the copied events of `es` are kept, and nothing else. */
  lemma {:induction false} ForwardedExactly(es: seq<Event>)
    ensures |Forwarded(es)| <= |es|
    ensures forall i :: 0 <= i < |Forwarded(es)| ==> Copied(Forwarded(es)[i]) && Forwarded(es)[i] in es
    ensures forall i :: 0 <= i < |es| && Copied(es[i]) ==> es[i] in Forwarded(es)
  {
    if es != [] {
      ForwardedExactly(es[1..]);
      var head := if Copied(es[0]) then [es[0]] else [];
      var out := Forwarded(es);
      assert out == head + Forwarded(es[1..]);
      forall i | 0 <= i < |es| && Copied(es[i])
        ensures es[i] in out
      {
        if i > 0 {
          assert es[i] == es[1..][i - 1];
        }
      }
    }
  }

  /** Copying is done event by event: the copy of a concatenation is the concatenation of the copies. */
  lemma {:induction false} ForwardedAppend(a: seq<Event>, b: seq<Event>)
    ensures Forwarded(a + b) == Forwarded(a) + Forwarded(b)
  {
    if a == [] {
      assert a + b == b;
    } else {
      assert (a + b)[0] == a[0] && (a + b)[1..] == a[1..] + b;
      ForwardedAppend(a[1..], b);
    }
  }
}
