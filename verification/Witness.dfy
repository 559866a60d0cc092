/** A configuration that meets every assumption on hashes, for the runs that are written out. */
module Witness {
  import opened Blocks
  import opened Store
  import opened World

  /** Nothing created yet. */
  function EmptyWorld(): World {
    World(map[], map[], Disk(map[], map[], 0))
  }

  /** Blocks of one byte, two of them in use, with ids of their own. */
  function TwoIds(multi: bool): Config {
    Config(1, multi, b => seq(HASH_SIZE, _ => if b == [0] then 'a' else 'b'))
  }

  lemma TwoIdsSound(multi: bool)
    ensures Sound(TwoIds(multi), iset{[0], [1]})
  {
    var c := TwoIds(multi);
    assert c.hash([0])[0] == 'a' && c.hash([1])[0] == 'b' && EmptyBlockHash()[0] == '0';
    assert Zeros(1) == [0];
  }

  /** Every set of tasks can be run in some order. */
  lemma {:induction false} SomeOrder(s: set<nat>) returns (order: seq<nat>)
    ensures multiset(order) == multiset(s)
  {
    order := [];
    if s != {} {
      var x :| x in s;
      var rest := SomeOrder(s - {x});
      assert s == s - {x} + {x};
      order := rest + [x];
    }
  }
}
