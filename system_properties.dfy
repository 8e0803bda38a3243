/**
 * The `System` property map: string keys to string values, where reading an
 * unset key inserts it with an empty value (`operator[]`).
 */
module SystemProperties {

  /** What a read of `key` yields: the stored value, or the empty string. */
  function PropertyValue(props: map<string, string>, key: string): (v: string)
    ensures key in props ==> v == props[key]
    ensures key !in props ==> v == ""
  {
    if key in props then props[key] else ""
  }

  /**
   * A set is read back; it changes no other key's value; and the empty
   * entry a read inserts changes no value any later read sees.
   */
  lemma PropertyReadsAfterUpdates(props: map<string, string>, key: string, value: string, other: string)
    ensures PropertyValue(props[key := value], key) == value
    ensures other != key ==> PropertyValue(props[key := value], other) == PropertyValue(props, other)
    ensures key !in props ==> PropertyValue(props[key := ""], other) == PropertyValue(props, other)
  {
  }

  /** The `__props__` map (one per translation unit that includes the header). */
  class Properties {
    var props: map<string, string>

    constructor ()
      ensures props == map[]
    {
      props := map[];
    }

    /** `SetProperty`: insert or overwrite. */
    method SetProperty(key: string, value: string)
      modifies this
      ensures props == old(props)[key := value]
      ensures PropertyValue(props, key) == value
    {
      props := props[key := value];
    }

    /** `GetProperty`: the stored value; an unset key is inserted with "" first. */
    method GetProperty(key: string) returns (value: string)
      modifies this
      ensures value == PropertyValue(old(props), key)
      ensures props == if key in old(props) then old(props) else old(props)[key := ""]
      ensures key in props
    {
      if key !in props {
        props := props[key := ""];
      }
      value := props[key];
    }
  }
}
