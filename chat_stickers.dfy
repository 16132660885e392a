/** The sticker tray's list of sent stickers: a send appends one at the end,
    and a sticker leaves the list when its own timer fires or when
    `removeSticker` is called for its id. This is the component with its
    close icon imported; as written, the missing `X` import stops any sent
    sticker from rendering. */
module ChatStickers {
  import opened Lists

  /** The five stickers offered, by label. */
  const StickerLabels: seq<string> := ["Smile", "Love", "Star", "Done", "Chat"]

  /** A sent sticker: `id` is the clock reading at the moment it was sent,
      `name` the label of the sticker. */
  datatype SentSticker = SentSticker(id: int, name: string)

  function StickerId(s: SentSticker): int { s.id }

  /** Sending a sticker with a fresh id and then removing that id gives back
      the list from before the send. */
  lemma RemoveAfterSendRestores(s: seq<SentSticker>, x: SentSticker)
    requires forall i :: 0 <= i < |s| ==> s[i].id != x.id
    ensures RemoveKey(s + [x], StickerId, x.id) == s
  {
    RemoveKeyAppend(s, x, StickerId, x.id);
    RemoveKeyAbsent(s, StickerId, x.id);
  }

  /** Removal deletes exactly the chosen stickers, keeps the rest in order,
      and does nothing for an id that is no longer there (a sticker closed
      by hand before its timer fired). */
  lemma RemoveProperties(s: seq<SentSticker>, id: int)
    ensures IsSubsequence(RemoveKey(s, StickerId, id), s)
    ensures |RemoveKey(s, StickerId, id)| + CountKey(s, StickerId, id) == |s|
    ensures (forall i :: 0 <= i < |s| ==> s[i].id != id) ==> RemoveKey(s, StickerId, id) == s
  {
    RemoveKeyIsSubsequence(s, StickerId, id);
    RemoveKeyCount(s, StickerId, id);
    if forall i :: 0 <= i < |s| ==> StickerId(s[i]) != id {
      RemoveKeyAbsent(s, StickerId, id);
    }
  }

  class StickerTray {
    var sentStickers: seq<SentSticker>
    /** The ids whose three-second removal timer has not fired yet. */
    var pending: seq<int>

    constructor ()
      ensures sentStickers == [] && pending == []
    {
      sentStickers := [];
      pending := [];
    }

    /** `handleSendSticker` for the sticker labelled `name`, at clock
        reading `now`: one sticker goes to the end of the list and its
        removal timer starts. */
    method SendSticker(name: string, now: int)
      modifies this
      ensures sentStickers == old(sentStickers) + [SentSticker(now, name)]
      ensures pending == old(pending) + [now]
    {
      sentStickers := sentStickers + [SentSticker(now, name)];
      pending := pending + [now];
    }

    /** The removal timer of the `k`-th waiting sticker fires: every sticker
        with that id goes, the rest stay in order. */
    method AutoRemove(k: nat)
      requires k < |pending|
      modifies this
      ensures sentStickers == RemoveKey(old(sentStickers), StickerId, old(pending)[k])
      ensures pending == old(pending)[..k] + old(pending)[k + 1..]
    {
      sentStickers := RemoveKey(sentStickers, StickerId, pending[k]);
      pending := pending[..k] + pending[k + 1..];
    }

    /** `removeSticker(id)`, the close button. */
    method RemoveSticker(id: int)
      modifies this
      ensures sentStickers == RemoveKey(old(sentStickers), StickerId, id)
      ensures pending == old(pending)
    {
      sentStickers := RemoveKey(sentStickers, StickerId, id);
    }
  }
}
