/** What an admission does with a hit before it pins it. */
module Hits {
  import opened KvTree
  import opened KvHolds
  import opened KvCache

  /** A hit on a whole prompt ends one block earlier, in its segment's parent if that was the segment's only matched
      block. */
  method GiveLastBack(cache: Cache, play: nat, tr: nat, h0: Hit) returns (h: Hit)
    requires cache.Valid() && GoodReq(cache.plays, play, tr) && h0.node in cache.tree &&
      cache.tree[h0.node].play == play
    requires HitAt(cache.tree[h0.node], h0) && PathIs(cache.tree, cache.plays, h0.node, tr, h0.blocks)
    requires h0.blocks > 0 && h0.blocks == cache.plays[play].reqs[tr].count &&
      (h0.lower <==> cache.tree[h0.node].tier > 0)
    ensures h.blocks == h0.blocks - 1 && h.node != -1 && Usable(cache.tree, cache.plays, h, play, tr)
    ensures FirstPath(cache.tree, cache.plays, h0.node) ==> FirstPath(cache.tree, cache.plays, h.node)
  {
    hide Inv, Stands, Slots, Roots, TierTok, PathIs, Chained;
    InvShape(cache.tree, cache.plays);
    RepAt(cache.nodes, cache.lru, cache.tree, cache.plays, {}, h0.node);
    ParentPathIs(cache.tree, cache.plays, h0.node, tr, h0.blocks);
    ShorterPathIs(cache.tree, cache.plays, h0.node, tr, h0.blocks, h0.blocks - 1);
    h := h0.(blocks := h0.blocks - 1, off := h0.off - 1);
    if h.off == 0 {
      var parent := cache.nodes[h.node].parent;
      ParentAt(cache.tree, h.node);
      InnerBlocks(cache.tree, cache.plays, parent);
      RepAt(cache.nodes, cache.lru, cache.tree, cache.plays, {}, parent);
      var lower := cache.AnyLower(parent);
      h := Hit(parent, h.blocks, cache.nodes[parent].nblocks, lower);
    }
  }
}
