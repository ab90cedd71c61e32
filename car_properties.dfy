/**
 * The CarProperties datastore entity and its conversions to and from
 * CarPropertiesDto. The entity is an object whose setters each update one
 * field; the DTO is a value. Car and its DTO are outside this model: they are
 * type parameters, and Car.create / Car.createDto are passed in as functions
 * about which nothing is assumed. A car reference is an Option of the car.
 */
module CarPropertiesDomain {
  import opened Wrappers
  import JavaInt

  /** A java.util.Date, as its milliseconds since the epoch; only ever copied here. */
  datatype Date = Date(millis: int)

  /** CarPropertiesDto: the id and the three scalars, and the car's DTO. */
  datatype CarPropertiesDto<CarDto> = CarPropertiesDto(
    id: Option<int>,
    someString: Option<string>,
    someNumber: Option<JavaInt.Int32>,
    someDate: Option<Date>,
    car: Option<CarDto>)

  class CarProperties<Car> {
    /** The identifier inherited from BaseEntity (a Long, possibly null). */
    var id: Option<int>
    var someString: Option<string>
    var someNumber: Option<JavaInt.Int32>
    var someDate: Option<Date>
    /** The Objectify reference to the car; None is a null reference. */
    var car: Option<Car>

    /** The default constructor; `now` is what `new Date()` reads from the clock. */
    constructor (now: Date)
      ensures someString == Some("") && someNumber == Some(0) && someDate == Some(now)
      ensures id == None && car == None
    {
      id := None;
      someString := Some("");
      someNumber := Some(0);
      someDate := Some(now);
      car := None;
    }

    constructor WithScalars(someString: Option<string>, someNumber: Option<JavaInt.Int32>, someDate: Option<Date>)
      ensures this.someString == someString && this.someNumber == someNumber && this.someDate == someDate
      ensures id == None && car == None
    {
      id := None;
      this.someString := someString;
      this.someNumber := someNumber;
      this.someDate := someDate;
      car := None;
    }

    /** getCar: the car the reference points to, or null. */
    function GetCar(): (c: Option<Car>)
      reads this
      ensures c.None? <==> car.None?
      ensures c.Some? ==> c.value == car.value
    {
      car
    }

    /** setCar: a reference to a non-null car, or a null reference. */
    method SetCar(c: Option<Car>)
      modifies this`car
      ensures c.None? ==> car.None?
      ensures c.Some? ==> car == Some(c.value)
    {
      if c.Some? {
        car := Some(c.value);
      } else {
        car := None;
      }
    }

    /** BaseEntity.setId. */
    method SetId(id: Option<int>)
      modifies this`id
      ensures this.id == id
    {
      this.id := id;
    }

    method SetSomeString(someString: Option<string>)
      modifies this`someString
      ensures this.someString == someString
    {
      this.someString := someString;
    }

    method SetSomeNumber(someNumber: Option<JavaInt.Int32>)
      modifies this`someNumber
      ensures this.someNumber == someNumber
    {
      this.someNumber := someNumber;
    }

    method SetSomeDate(someDate: Option<Date>)
      modifies this`someDate
      ensures this.someDate == someDate
    {
      this.someDate := someDate;
    }
  }

  /** The entity and the DTO carry the same id and the same three scalars. */
  predicate SameScalars<Car, CarDto>(entity: CarProperties<Car>, dto: CarPropertiesDto<CarDto>)
    reads entity
  {
    && entity.id == dto.id
    && entity.someString == dto.someString
    && entity.someNumber == dto.someNumber
    && entity.someDate == dto.someDate
  }

  /** CarProperties.createDto: null for null; otherwise a DTO with the entity's
      id and scalars and Car.createDto of its car. */
  function CreateDto<Car, CarDto>(
    carProperties: CarProperties?<Car>,
    carCreateDto: Option<Car> -> Option<CarDto>): (dto: Option<CarPropertiesDto<CarDto>>)
    reads carProperties
    ensures carProperties == null <==> dto.None?
    ensures dto.Some? ==> SameScalars(carProperties, dto.value)
    ensures dto.Some? ==> dto.value.car == carCreateDto(carProperties.GetCar())
  {
    if carProperties == null then None
    else Some(CarPropertiesDto(
      car := carCreateDto(carProperties.GetCar()),
      id := carProperties.id,
      someDate := carProperties.someDate,
      someNumber := carProperties.someNumber,
      someString := carProperties.someString))
  }

  /** CarProperties.create: null for null; otherwise a new entity with the DTO's
      id and scalars and a reference to Car.create of its car. */
  method Create<Car, CarDto>(
    dto: Option<CarPropertiesDto<CarDto>>,
    carCreate: Option<CarDto> -> Option<Car>,
    now: Date) returns (carProperties: CarProperties?<Car>)
    ensures dto.None? <==> carProperties == null
    ensures carProperties != null ==> fresh(carProperties)
    ensures carProperties != null ==> SameScalars(carProperties, dto.value)
    ensures carProperties != null ==> carProperties.car == carCreate(dto.value.car)
  {
    if dto.None? {
      return null;
    }
    var d := dto.value;
    carProperties := new CarProperties(now);
    carProperties.SetCar(carCreate(d.car));
    carProperties.SetId(d.id);
    carProperties.SetSomeDate(d.someDate);
    carProperties.SetSomeNumber(d.someNumber);
    carProperties.SetSomeString(d.someString);
  }

  /** Entity to DTO and back: the copy agrees with the original on the id and
      the scalars, and its car is Car.create of Car.createDto of the original's. */
  method EntityRoundTrip<Car, CarDto>(
    x: CarProperties<Car>,
    carCreateDto: Option<Car> -> Option<CarDto>,
    carCreate: Option<CarDto> -> Option<Car>,
    now: Date) returns (y: CarProperties<Car>)
    ensures y.id == x.id && y.someString == x.someString
    ensures y.someNumber == x.someNumber && y.someDate == x.someDate
    ensures y.car == carCreate(carCreateDto(x.car))
  {
    var dto := CreateDto(x, carCreateDto);
    var back := Create(dto, carCreate, now);
    y := back;
  }

  /** DTO to entity and back: the same, the other way round. */
  method DtoRoundTrip<Car, CarDto>(
    d: CarPropertiesDto<CarDto>,
    carCreate: Option<CarDto> -> Option<Car>,
    carCreateDto: Option<Car> -> Option<CarDto>,
    now: Date) returns (e: CarPropertiesDto<CarDto>)
    ensures e.id == d.id && e.someString == d.someString
    ensures e.someNumber == d.someNumber && e.someDate == d.someDate
    ensures e.car == carCreateDto(carCreate(d.car))
  {
    var entity := Create(Some(d), carCreate, now);
    var back := CreateDto(entity, carCreateDto);
    e := back.value;
  }
}
