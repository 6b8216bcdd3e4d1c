/**
 * Environment entities (categories, elements, environments) and an
 * in-memory store standing for the database tables that hold them.
 * Each row gets the next identity of its table, so `id` is its position.
 */
module Environments {

  datatype Category = Category(id: nat, name: string)

  /** An element (say "Windows") of a category (say "OS"). */
  datatype Element = Element(id: nat, name: string, category: Category)

  /** An environment is a combination of elements. */
  datatype Environment = Environment(id: nat, elements: seq<Element>)

  class Store {
    var categories: seq<Category>
    var elements: seq<Element>
    var environments: seq<Environment>

    /** Identities are positions, and rows only refer to rows that exist. */
    ghost predicate Valid()
      reads this
    {
      && (forall i :: 0 <= i < |categories| ==> categories[i].id == i)
      && (forall i :: 0 <= i < |elements| ==>
            elements[i].id == i && HasCategory(elements[i].category))
      && (forall i :: 0 <= i < |environments| ==>
            environments[i].id == i && HasElements(environments[i].elements))
    }

    ghost predicate HasCategory(c: Category)
      reads this
    {
      c.id < |categories| && categories[c.id] == c
    }

    ghost predicate HasElement(e: Element)
      reads this
    {
      e.id < |elements| && elements[e.id] == e
    }

    ghost predicate HasElements(els: seq<Element>)
      reads this
    {
      forall j :: 0 <= j < |els| ==> HasElement(els[j])
    }

    /** A stored element is found under its own identity. */
    lemma StoredElement(e: Element)
      requires Valid() && e in elements
      ensures HasElement(e)
    {
    }

    constructor ()
      ensures Valid()
      ensures categories == [] && elements == [] && environments == []
    {
      categories, elements, environments := [], [], [];
    }

    method CreateCategory(name: string) returns (c: Category)
      requires Valid()
      modifies this
      ensures Valid()
      ensures c == Category(|old(categories)|, name)
      ensures categories == old(categories) + [c]
      ensures elements == old(elements) && environments == old(environments)
    {
      c := Category(|categories|, name);
      categories := categories + [c];
    }

    method CreateElement(name: string, category: Category) returns (e: Element)
      requires Valid() && HasCategory(category)
      modifies this
      ensures Valid()
      ensures e == Element(|old(elements)|, name, category)
      ensures elements == old(elements) + [e]
      ensures categories == old(categories) && environments == old(environments)
    {
      e := Element(|elements|, name, category);
      elements := elements + [e];
    }

    method CreateEnvironment(els: seq<Element>) returns (env: Environment)
      requires Valid() && HasElements(els)
      modifies this
      ensures Valid()
      ensures env == Environment(|old(environments)|, els)
      ensures environments == old(environments) + [env]
      ensures categories == old(categories) && elements == old(elements)
    {
      env := Environment(|environments|, els);
      environments := environments + [env];
    }
  }
}
