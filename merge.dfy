/**
 * M3U8/fetch.py, the merge of the adapters' live maps: each adapter tags its
 * keys with its own name, which keeps the `|` chain of `main` from letting
 * one adapter's channel replace another's.
 */
module Merge {
  import opened Store
  import Fetch
  import Fstv
  import Lotus
  import Pixel
  import Ppv
  import Roxie
  import Streambtw
  import Streameast
  import Strmfree
  import Tvpass
  import Watchfooty

  /** The tags of the adapters whose maps `main` merges, in the order of the `|` chain. */
  const AdapterTags := [Fstv.Tag, Lotus.Tag, Pixel.Tag, Ppv.Tag, Roxie.Tag, Streambtw.Tag, Streameast.Tag,
                        Strmfree.Tag, Tvpass.Tag, Watchfooty.Tag]

  lemma AdapterTagsDistinct()
    ensures forall a, b :: 0 <= a < b < |AdapterTags| ==> AdapterTags[a] != AdapterTags[b]
    ensures forall a :: 0 <= a < |AdapterTags| ==> '(' !in AdapterTags[a]
  {
  }

  /**
   * The tags of all eleven maps of the `|` chain: strmd's adapter is not part
   * of this model, so its tag is a parameter, and its map sits between
   * streameast's and strmfree's.
   */
  function ChainTags(strmdTag: string): (r: seq<string>)
    ensures |r| == |AdapterTags| + 1 && r[7] == strmdTag
  {
    AdapterTags[..7] + [strmdTag] + AdapterTags[7..]
  }

  /** With a "("-free strmd tag that no modelled adapter uses, the eleven tags are distinct and "("-free. */
  lemma ChainTagsDistinct(strmdTag: string)
    requires '(' !in strmdTag && strmdTag !in AdapterTags
    ensures forall a, b :: 0 <= a < b < |ChainTags(strmdTag)| ==> ChainTags(strmdTag)[a] != ChainTags(strmdTag)[b]
    ensures forall a :: 0 <= a < |ChainTags(strmdTag)| ==> '(' !in ChainTags(strmdTag)[a]
  {
    var tags := ChainTags(strmdTag);
    AdapterTagsDistinct();
    forall a | 0 <= a < |tags|
      ensures tags[a] == if a < 7 then AdapterTags[a] else if a == 7 then strmdTag else AdapterTags[a - 1]
    {
    }
  }

  /**
   * When each of the eleven maps `main` merges holds only keys carrying its
   * own tag, the merge never lets one adapter's channel replace another's:
   * every key keeps the entry of the adapter that produced it.
   */
  lemma MergeKeepsOwner(maps: seq<map<string, Entry>>, strmdTag: string, i: nat, k: string)
    requires '(' !in strmdTag && strmdTag !in AdapterTags
    requires |maps| == |ChainTags(strmdTag)|
    requires forall a, key :: 0 <= a < |maps| && key in maps[a] ==> HasTag(key, ChainTags(strmdTag)[a])
    requires i < |maps| && k in maps[i]
    ensures k in Fetch.MergeAll(maps) && Fetch.MergeAll(maps)[k] == maps[i][k]
  {
    var tags := ChainTags(strmdTag);
    Fetch.MergeAllKeys(maps);
    Fetch.MergeAllValue(maps, k);
    var j :| 0 <= j < |maps| && k in maps[j] && Fetch.MergeAll(maps)[k] == maps[j][k] &&
      forall j' :: j < j' < |maps| ==> k !in maps[j'];
    ChainTagsDistinct(strmdTag);
    assert HasTag(k, tags[i]) && HasTag(k, tags[j]);
    TagUnique(k, tags[i], tags[j]);
    assert i == j;
  }
}
