/**
 * The two browser facilities the breach pages use: the origin-wide
 * key-value store (`localStorage`) and the random-number source
 * (`Math.random`).
 */
module Browser {

  /** The contents of `localStorage`: string keys to string values. */
  type Store = map<string, string>

  /** One value of `Math.random()`: a real in [0, 1). */
  type Draw = r: real | 0.0 <= r < 1.0

  /** `localStorage.getItem(key) === 'true'`: an absent key reads as `null`. */
  predicate HoldsTrue(store: Store, key: string)
  {
    key in store && store[key] == "true"
  }

  /** `localStorage.setItem(key, value)`, as another page of the origin performs it. */
  function SetItem(store: Store, key: string, value: string): Store
  {
    store[key := value]
  }

  /** `localStorage.removeItem(key)`; removing an absent key changes nothing. */
  function RemoveItem(store: Store, key: string): Store
  {
    store - {key}
  }
}
