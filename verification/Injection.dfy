/**
 Pasting a transcript through the clipboard: save what the user had there, copy
 the transcript, press the paste keys, put the old contents back.

 The clipboard tools are outside programs, so every call may fail; a failed copy
 or restore may leave anything behind.
 */
module Injection {
  import opened Common

  /** The selection: nothing, text of some MIME type, or something that is not text. */
  datatype Clipboard = Empty | Text(mime: string, content: string) | Binary(mime: string, content: string)

  /** What `save_clipboard` remembered. */
  datatype Saved = SavedEmpty | SavedText(mime: string, content: string) | SavedBinary(mime: string)

  /** How one clipboard command ended. */
  datatype Attempt = Worked | Failed(left: Clipboard)

  /** One finished call of `paste_text` or `type_text`, with what the tools did. */
  datatype Delivery =
    | Typed(text: string, ok: bool)
    | Unconfigured(text: string)
    | CopyFailed(text: string, readable: bool, left: Clipboard)
    | KeysFailed(text: string, readable: bool)
    | Pasted(text: string, readable: bool, restore: Attempt)

  datatype Mode = Typing | Pasting(hasKeys: bool)

  datatype InjectError = ClipboardError | PasteError | TypeError

  /** The MIME type a transcript copied without an explicit type is offered as. */
  const PLAIN := "text/plain"

  function Transcript(text: string): Clipboard {
    Text(PLAIN, text)
  }

  function Save(clipboard: Clipboard, readable: bool): Saved {
    match clipboard
    case Empty => SavedEmpty
    case Binary(mime, _) => SavedBinary(mime)
    case Text(mime, content) => if readable then SavedText(mime, content) else SavedEmpty
  }

  function Restore(saved: Saved, clipboard: Clipboard, attempt: Attempt): Clipboard {
    match saved
    case SavedBinary(_) => clipboard
    case SavedEmpty => if attempt.Worked? then Empty else attempt.left
    case SavedText(mime, content) => if attempt.Worked? then Text(mime, content) else attempt.left
  }

  /** The clipboard after a whole delivery that began with `before` on it. */
  function After(before: Clipboard, d: Delivery): Clipboard {
    match d
    case Typed(_, _) => before
    case Unconfigured(_) => before
    case CopyFailed(_, _, left) => left
    case KeysFailed(text, _) => Transcript(text)
    case Pasted(text, readable, restore) => Restore(Save(before, readable), Transcript(text), restore)
  }

  /** Deliveries run one after the other. */
  function Serial(before: Clipboard, ds: seq<Delivery>): Clipboard {
    if ds == [] then before else After(Serial(before, ds[..|ds| - 1]), ds[|ds| - 1])
  }

  lemma SerialAppend(before: Clipboard, ds: seq<Delivery>, d: Delivery)
    ensures Serial(before, ds + [d]) == After(Serial(before, ds), d)
  {
    assert (ds + [d])[..|ds|] == ds;
  }

  /** The delivery used the clipboard and every tool did its job, or never touched the clipboard. */
  predicate Clean(d: Delivery) {
    match d
    case Typed(_, _) => true
    case Unconfigured(_) => true
    case Pasted(_, readable, restore) => readable && restore.Worked?
    case _ => false
  }

  /** A clean delivery gives the clipboard back exactly when it held text or nothing, or was not used. */
  lemma CleanDeliveryKeepsClipboard(before: Clipboard, d: Delivery)
    requires Clean(d)
    ensures After(before, d) == before <==> !d.Pasted? || !before.Binary?
  {
  }

  /** Any number of clean deliveries gives a text or empty clipboard back. */
  lemma {:induction false} CleanDeliveriesKeepClipboard(before: Clipboard, ds: seq<Delivery>)
    requires !before.Binary?
    requires forall d :: d in ds ==> Clean(d)
    ensures Serial(before, ds) == before
  {
    if ds == [] {
    } else {
      var init := ds[..|ds| - 1];
      forall d | d in init ensures Clean(d) { assert d in ds; }
      CleanDeliveriesKeepClipboard(before, init);
      assert ds[|ds| - 1] in ds;
    }
  }

  /** The display server's clipboard and keyboard, as the injector drives them. */
  class Desktop {
    var clipboard: Clipboard
    /** What the clipboard held at each paste keystroke. */
    var keystrokes: seq<Clipboard>
    var typed: seq<string>

    constructor (initial: Clipboard)
      ensures clipboard == initial && keystrokes == [] && typed == []
    {
      clipboard, keystrokes, typed := initial, [], [];
    }

    method SaveClipboard(readable: bool) returns (saved: Saved)
      ensures saved == Save(clipboard, readable)
    {
      match clipboard {
        case Empty => saved := SavedEmpty;
        case Binary(mime, _) => saved := SavedBinary(mime);
        case Text(mime, content) =>
          if readable { saved := SavedText(mime, content); } else { saved := SavedEmpty; }
      }
    }

    method Copy(contents: Clipboard, attempt: Attempt)
      modifies this`clipboard
      ensures clipboard == if attempt.Worked? then contents else attempt.left
    {
      clipboard := if attempt.Worked? then contents else attempt.left;
    }

    method RestoreClipboard(saved: Saved, attempt: Attempt)
      modifies this`clipboard
      ensures clipboard == Restore(saved, old(clipboard), attempt)
    {
      match saved {
        case SavedEmpty => Copy(Empty, attempt);
        case SavedText(mime, content) => Copy(Text(mime, content), attempt);
        case SavedBinary(_) =>
      }
    }

    /** `Injector::inject`: type the text, or paste it through the clipboard.
        The flags say what the outside tools do along the way. */
    method Inject(mode: Mode, text: string, readable: bool, copy: Attempt, pressed: bool, restore: Attempt)
      returns (result: Result<(), InjectError>, ghost delivery: Delivery)
      modifies this
      ensures delivery ==
              match mode
              case Typing => Typed(text, pressed)
              case Pasting(hasKeys) =>
                if !hasKeys then Unconfigured(text)
                else if copy.Failed? then CopyFailed(text, readable, copy.left)
                else if !pressed then KeysFailed(text, readable)
                else Pasted(text, readable, restore)
      ensures clipboard == After(old(clipboard), delivery)
      ensures clipboard ==
              if mode.Typing? || !mode.hasKeys then old(clipboard)
              else if copy.Failed? then copy.left
              else if !pressed then Text("text/plain", text)
              else
                match old(clipboard)
                case Binary(_, _) => Text("text/plain", text)
                case Empty => if restore.Worked? then Empty else restore.left
                case Text(_, _) => if restore.Failed? then restore.left else if readable then old(clipboard) else Empty
      ensures keystrokes == old(keystrokes) + if delivery.Pasted? then [Text("text/plain", text)] else []
      ensures typed == old(typed) + if delivery == Typed(text, true) then [text] else []
      ensures result.Ok? <==> delivery.Pasted? || delivery == Typed(text, true)
    {
      match mode {
        case Typing =>
          delivery := Typed(text, pressed);
          if pressed {
            typed := typed + [text];
            return Ok(()), delivery;
          }
          return Err(TypeError), delivery;
        case Pasting(hasKeys) =>
          if !hasKeys {
            return Err(PasteError), Unconfigured(text);
          }
      }
      var saved := SaveClipboard(readable);
      Copy(Transcript(text), copy);
      if copy.Failed? {
        return Err(ClipboardError), CopyFailed(text, readable, copy.left);
      }
      if !pressed {
        return Err(PasteError), KeysFailed(text, readable);
      }
      keystrokes := keystrokes + [clipboard];
      RestoreClipboard(saved, restore);
      return Ok(()), Pasted(text, readable, restore);
    }
  }
}
