/**
 * The photo attachments of the proposal's appendix: the caption edit and the
 * removal of a photo, as transitions from the old list to the new one.
 */
module Photos {
  import opened Quote

  /** `updatePhotoCaption(id, text)`: the caption of every photo with that id
      is replaced; nothing else changes. */
  function Recaption(photos: seq<Photo>, id: string, text: string): (r: seq<Photo>)
    ensures |r| == |photos|
    ensures forall i :: 0 <= i < |photos| ==>
      r[i] == if photos[i].id == id then photos[i].(caption := text) else photos[i]
  {
    if photos == [] then []
    else [if photos[0].id == id then photos[0].(caption := text) else photos[0]]
         + Recaption(photos[1..], id, text)
  }

  /** `removePhoto(id)`: the photos whose id differs, in their order. */
  function RemovePhoto(photos: seq<Photo>, id: string): (r: seq<Photo>)
    ensures IsSubsequence(r, photos)
    ensures forall p :: p in r <==> p in photos && p.id != id
    ensures forall p :: multiset(r)[p] == if p.id != id then multiset(photos)[p] else 0
  {
    assert photos != [] ==> photos == [photos[0]] + photos[1..];
    if photos == [] then []
    else if photos[0].id != id then [photos[0]] + RemovePhoto(photos[1..], id)
    else RemovePhoto(photos[1..], id)
  }
}
