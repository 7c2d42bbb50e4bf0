/** Looking for a piece of text in a text: `piece in text`. */
module Text {

  predicate IsAt(text: string, piece: string, k: nat) {
    k + |piece| <= |text| && text[k..k + |piece|] == piece
  }

  predicate Contains(text: string, piece: string) {
    exists k :: 0 <= k <= |text| && IsAt(text, piece, k)
  }
}
