/** The backend's `Product` entity: a mutable object with ten public fields, a constructor
    that fills them all, and a getter and a setter per field. Its `price` is the wei amount
    as decimal text. */
module Entities {

  /** The ten fields of a `Product`, as one value. The service's lists hold these. */
  datatype ProductRecord = ProductRecord(
    id: nat,
    name: string,
    photo: string,
    description: string,
    price: string,
    seller: string,
    isDeleted: bool,
    isSold: bool,
    isReserved: bool,
    buyer: string)

  class Product {
    var id: nat
    var name: string
    var photo: string
    var description: string
    var price: string
    var seller: string
    var isDeleted: bool
    var isSold: bool
    var isReserved: bool
    var buyer: string

    /** The current values of all ten fields. */
    function Record(): ProductRecord
      reads this
    {
      ProductRecord(id, name, photo, description, price, seller, isDeleted, isSold, isReserved, buyer)
    }

    /** The ten-argument constructor stores each argument in the field of the same name. */
    constructor (id: nat, name: string, photo: string, description: string, price: string, seller: string,
                 isDeleted: bool, isSold: bool, isReserved: bool, buyer: string)
      ensures Record() == ProductRecord(id, name, photo, description, price, seller, isDeleted, isSold, isReserved, buyer)
    {
      this.id := id;
      this.name := name;
      this.photo := photo;
      this.description := description;
      this.price := price;
      this.seller := seller;
      this.isDeleted := isDeleted;
      this.isSold := isSold;
      this.isReserved := isReserved;
      this.buyer := buyer;
    }

    function GetId(): nat reads this { id }
    function GetName(): string reads this { name }
    function GetPhoto(): string reads this { photo }
    function GetDescription(): string reads this { description }
    function GetPrice(): string reads this { price }
    function GetSeller(): string reads this { seller }
    function GetDeleted(): bool reads this { isDeleted }
    function GetSold(): bool reads this { isSold }
    function GetReserved(): bool reads this { isReserved }
    function GetBuyer(): string reads this { buyer }

    // Each setter changes its own field and leaves the other nine as they were, so the
    // matching getter then returns the value just set.

    method SetId(id: nat)
      modifies this
      ensures GetId() == id
      ensures Record() == old(Record()).(id := id)
    {
      this.id := id;
    }

    method SetName(name: string)
      modifies this
      ensures GetName() == name
      ensures Record() == old(Record()).(name := name)
    {
      this.name := name;
    }

    method SetPhoto(photo: string)
      modifies this
      ensures GetPhoto() == photo
      ensures Record() == old(Record()).(photo := photo)
    {
      this.photo := photo;
    }

    method SetDescription(description: string)
      modifies this
      ensures GetDescription() == description
      ensures Record() == old(Record()).(description := description)
    {
      this.description := description;
    }

    method SetPrice(price: string)
      modifies this
      ensures GetPrice() == price
      ensures Record() == old(Record()).(price := price)
    {
      this.price := price;
    }

    method SetSeller(seller: string)
      modifies this
      ensures GetSeller() == seller
      ensures Record() == old(Record()).(seller := seller)
    {
      this.seller := seller;
    }

    method SetDeleted(deleted: bool)
      modifies this
      ensures GetDeleted() == deleted
      ensures Record() == old(Record()).(isDeleted := deleted)
    {
      isDeleted := deleted;
    }

    method SetSold(sold: bool)
      modifies this
      ensures GetSold() == sold
      ensures Record() == old(Record()).(isSold := sold)
    {
      isSold := sold;
    }

    method SetReserved(reserved: bool)
      modifies this
      ensures GetReserved() == reserved
      ensures Record() == old(Record()).(isReserved := reserved)
    {
      isReserved := reserved;
    }

    method SetBuyer(buyer: string)
      modifies this
      ensures GetBuyer() == buyer
      ensures Record() == old(Record()).(buyer := buyer)
    {
      this.buyer := buyer;
    }
  }

  /** A getter read after the matching setter returns the value set, and the flag getters
      read the flags: `setReserved` then `getReserved` on a fresh entity. */
  method ReservedAfterSet(record: ProductRecord, reserved: bool) returns (deleted: bool, sold: bool, got: bool)
    ensures deleted == record.isDeleted && sold == record.isSold && got == reserved
  {
    var p := new Product(record.id, record.name, record.photo, record.description, record.price, record.seller,
                         record.isDeleted, record.isSold, record.isReserved, record.buyer);
    p.SetReserved(reserved);
    deleted, sold, got := p.GetDeleted(), p.GetSold(), p.GetReserved();
  }
}
