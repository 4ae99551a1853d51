/** The browser's `localStorage` as far as the video gates use it: a map from
    keys to strings, and the key under which a paid video is remembered. */
module Storage {
  import opened Wrappers

  const AccessKeyPrefix := "video_access_"

  /** `video_access_<videoId>`. */
  function AccessKey(videoId: string): string {
    AccessKeyPrefix + videoId
  }

  /** Different videos are remembered under different keys. */
  lemma AccessKeyInjective(a: string, b: string)
    requires AccessKey(a) == AccessKey(b)
    ensures a == b
  {
    assert a == AccessKey(a)[|AccessKeyPrefix|..];
    assert b == AccessKey(b)[|AccessKeyPrefix|..];
  }

  class LocalStorage {
    var items: map<string, string>

    constructor (items: map<string, string>)
      ensures this.items == items
    {
      this.items := items;
    }

    /** `getItem`: the stored string, or `null`. */
    function GetItem(key: string): (r: Option<string>)
      reads this
      ensures r.Some? <==> key in items
      ensures r.Some? ==> r.value == items[key]
    {
      if key in items then Some(items[key]) else None
    }

    /** `setItem`. */
    method SetItem(key: string, value: string)
      modifies this
      ensures items == old(items)[key := value]
      ensures GetItem(key) == Some(value)
    {
      items := items[key := value];
    }
  }
}
