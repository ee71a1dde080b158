/** Rows of the membership table (src/server.rs): their key, and how a cursor moves. */
module Memberships {
  import opened Prelude

  datatype Seat = Seat(principal: string, channel: string)

  /** UPDATE ... SET last_seen_seq = MAX(last_seen_seq, n): an existing cursor only rises, and no row is created. */
  function Seen(cursors: map<Seat, int>, seat: Seat, seqNo: int): map<Seat, int> {
    if seat in cursors then cursors[seat := Max(cursors[seat], seqNo)] else cursors
  }
}
