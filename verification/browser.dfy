/** The two browser globals the core writes: `localStorage` (a string to
    string store that survives reloads) and `window.location`. */
module Browser {
  import opened Wrappers

  class Window {
    var localStorage: map<string, string>
    /** `window.location.href`, the navigation target. */
    var location: string

    constructor (storage: map<string, string>, href: string)
      ensures localStorage == storage && location == href
    {
      localStorage := storage;
      location := href;
    }

    /** `localStorage.getItem(key)`: `null` for a missing key. */
    function GetItem(key: string): Option<string>
      reads this
    {
      if key in localStorage then Some(localStorage[key]) else None
    }

    method SetItem(key: string, value: string)
      modifies this
      ensures localStorage == old(localStorage)[key := value]
      ensures location == old(location)
    {
      localStorage := localStorage[key := value];
    }

    method RemoveItem(key: string)
      modifies this
      ensures localStorage == old(localStorage) - {key}
      ensures location == old(location)
    {
      localStorage := localStorage - {key};
    }

    /** `window.location.href = href`. */
    method Navigate(href: string)
      modifies this
      ensures location == href
      ensures localStorage == old(localStorage)
    {
      location := href;
    }
  }
}
